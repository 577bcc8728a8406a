/** The query-string part of an avatar URL: parameters joined with '&' behind a
    single '?', and the reading of such a string back into its parameters. */
module Query {

  /** The parameters joined with '&': no separator before the first or after the last. */
  function Join(ps: seq<string>): string
  {
    if |ps| == 0 then "" else if |ps| == 1 then ps[0] else ps[0] + "&" + Join(ps[1..])
  }

  /** Every parameter followed by '&': the text a left-to-right join loop has built
      before it appends its last parameter. */
  function Terminated(ps: seq<string>): string
  {
    if ps == [] then "" else Terminated(ps[..|ps| - 1]) + ps[|ps| - 1] + "&"
  }

  /** Joining is the same as writing each parameter but the last with its
      separator, and then the last one alone. */
  lemma {:induction false} JoinByLast(ps: seq<string>)
    requires |ps| >= 1
    ensures Join(ps) == Terminated(ps[..|ps| - 1]) + ps[|ps| - 1]
  {
    if |ps| > 1 {
      var rest := ps[1..];
      JoinByLast(rest);
      TerminatedCons(ps[0], rest[..|rest| - 1]);
      assert [ps[0]] + rest[..|rest| - 1] == ps[..|ps| - 1];
    }
  }

  lemma {:induction false} TerminatedCons(p: string, ps: seq<string>)
    ensures Terminated([p] + ps) == p + "&" + Terminated(ps)
  {
    if ps != [] {
      TerminatedCons(p, ps[..|ps| - 1]);
      assert ([p] + ps)[..|ps|] == [p] + ps[..|ps| - 1];
    } else {
      assert ([p] + ps)[..0] == [];
    }
  }

  /** The suffix appended to the URL: nothing when there are no parameters,
      otherwise '?' and the joined parameters. */
  function QueryString(ps: seq<string>): string
  {
    if ps == [] then "" else "?" + Join(ps)
  }

  /** Position of the first occurrence of `c` in `s`. */
  function IndexOf(s: string, c: char): (i: nat)
    requires c in s
    ensures i < |s| && s[i] == c && c !in s[..i]
  {
    if s[0] == c then 0 else 1 + IndexOf(s[1..], c)
  }

  /** Cuts a string at every '&'. */
  function Split(s: string): (ps: seq<string>)
    ensures |ps| >= 1
    decreases |s|
  {
    if '&' !in s then [s] else var i := IndexOf(s, '&'); [s[..i]] + Split(s[i + 1..])
  }

  /** Splitting undoes joining, as long as no parameter holds a '&'. */
  lemma {:induction false} SplitJoin(ps: seq<string>)
    requires |ps| >= 1
    requires forall k :: 0 <= k < |ps| ==> '&' !in ps[k]
    ensures Split(Join(ps)) == ps
  {
    if |ps| > 1 {
      var s := Join(ps);
      assert s == ps[0] + "&" + Join(ps[1..]);
      assert s[..|ps[0]|] == ps[0];
      assert s[|ps[0]|] == '&';
      assert IndexOf(s, '&') == |ps[0]|;
      assert s[|ps[0]| + 1..] == Join(ps[1..]);
      SplitJoin(ps[1..]);
    }
  }

  /** A joined text of non-empty parameters free of '&' neither starts nor ends with '&'. */
  lemma {:induction false} JoinHasNoOuterSeparator(ps: seq<string>)
    requires |ps| >= 1
    requires forall k :: 0 <= k < |ps| ==> |ps[k]| >= 1 && '&' !in ps[k]
    ensures |Join(ps)| >= 1
    ensures Join(ps)[0] != '&' && Join(ps)[|Join(ps)| - 1] != '&'
  {
    var first, last := ps[0], ps[|ps| - 1];
    assert first[0] in first;
    assert last[|last| - 1] in last;
    JoinEnds(ps);
  }

  lemma {:induction false} JoinEnds(ps: seq<string>)
    requires |ps| >= 1
    requires forall k :: 0 <= k < |ps| ==> |ps[k]| >= 1
    ensures |Join(ps)| >= 1
    ensures Join(ps)[0] == ps[0][0]
    ensures Join(ps)[|Join(ps)| - 1] == ps[|ps| - 1][|ps[|ps| - 1]| - 1]
  {
    if |ps| > 1 {
      var rest := ps[1..];
      JoinEnds(rest);
      var j := Join(ps);
      assert j == ps[0] + "&" + Join(rest);
      assert rest[|rest| - 1] == ps[|ps| - 1];
      assert j[|j| - 1] == Join(rest)[|Join(rest)| - 1];
    }
  }

  /** The outcome of looking a key up among the parameters. */
  datatype Lookup = Absent | Present(value: string)

  /** Whether a parameter has the form `key=...`. */
  predicate HasKey(p: string, key: string)
  {
    |p| > |key| && p[..|key|] == key && p[|key|] == '='
  }

  /** The value of the first parameter `key=value`, if any. */
  function Find(ps: seq<string>, key: string): Lookup
  {
    if ps == [] then Absent
    else if HasKey(ps[0], key) then Present(ps[0][|key| + 1..])
    else Find(ps[1..], key)
  }

  /** Looking a key up in two lists of parameters written one after the other
      finds it in the first list if it is there, and otherwise in the second. */
  lemma {:induction false} FindAppend(a: seq<string>, b: seq<string>, key: string)
    ensures Find(a + b, key) == if Find(a, key).Present? then Find(a, key) else Find(b, key)
  {
    if a == [] {
      assert a + b == b;
    } else if HasKey(a[0], key) {
    } else {
      assert (a + b)[1..] == a[1..] + b;
      FindAppend(a[1..], b, key);
    }
  }

  /** In a list of at most one parameter, all of the form `c=...`, a one-letter
      key other than `c` is absent, and `c` itself gives the text after '='. */
  lemma FindOneLetterKey(ps: seq<string>, c: char, key: char)
    requires |ps| <= 1
    requires forall k :: 0 <= k < |ps| ==> |ps[k]| >= 2 && ps[k][0] == c && ps[k][1] == '='
    ensures key != c ==> Find(ps, [key]) == Absent
    ensures key == c && |ps| == 1 ==> Find(ps, [key]) == Present(ps[0][2..])
  {
    if |ps| == 1 {
      var p := ps[0];
      assert p[..1] == [p[0]];
      assert ps[1..] == [];
    }
  }
}
