/** What the rendered avatar URL promises: its layout, the digest, which
    parameters appear with which values and in which order, and that the query
    can be read back. */
module GravatarProperties {
  import opened Formatting
  import opened Query
  import opened Gravatar

  // ---------------------------------------------------------------------------
  // The parameters one by one

  /** The list of parameters is the four optional parts, each with at most one entry. */
  lemma ParamParts(st: GeneratorState, urlEncode: string -> string)
    ensures var ps := UrlParams(st, urlEncode);
      ps == SizePart(st) + RatingPart(st) + ImagePart(st, urlEncode) + ForcePart(st)
  {
  }

  function SizePart(st: GeneratorState): seq<string>
  {
    if st.size > 0 then ["s=" + NatToDecimal(st.size)] else []
  }

  function RatingPart(st: GeneratorState): seq<string>
  {
    var p := RatingParam(st.displayRating);
    if p.Str? then [p.value] else []
  }

  function ImagePart(st: GeneratorState, urlEncode: string -> string): seq<string>
  {
    var p := DefaultImageParam(st.defaultDisplay, st.defaultImage, urlEncode);
    if p.Str? then [p.value] else []
  }

  function ForcePart(st: GeneratorState): seq<string>
  {
    if st.forceDefaultImage then ["f=y"] else []
  }

  /** Looking a key up in the parameters means looking in the size part, then
      the rating part, then the default-image part, then the force part. */
  lemma FindInParts(st: GeneratorState, urlEncode: string -> string, key: string)
    ensures var a, b, c, d := SizePart(st), RatingPart(st), ImagePart(st, urlEncode), ForcePart(st);
      Find(UrlParams(st, urlEncode), key)
        == if Find(a, key).Present? then Find(a, key)
           else if Find(b, key).Present? then Find(b, key)
           else if Find(c, key).Present? then Find(c, key)
           else Find(d, key)
  {
    ParamParts(st, urlEncode);
    var a, b, c, d := SizePart(st), RatingPart(st), ImagePart(st, urlEncode), ForcePart(st);
    assert a + b + c + d == a + (b + (c + d));
    FindAppend(a, b + (c + d), key);
    FindAppend(b, c + d, key);
    FindAppend(c, d, key);
  }

  /** Each part holds at most one parameter, of the form `key=...` with its own key. */
  lemma PartShapes(st: GeneratorState, urlEncode: string -> string)
    ensures var a, b, c, d := SizePart(st), RatingPart(st), ImagePart(st, urlEncode), ForcePart(st);
      && |a| <= 1 && |b| <= 1 && |c| <= 1 && |d| <= 1
      && (forall k :: 0 <= k < |a| ==> |a[k]| >= 2 && a[k][0] == 's' && a[k][1] == '=')
      && (forall k :: 0 <= k < |b| ==> |b[k]| >= 2 && b[k][0] == 'r' && b[k][1] == '=')
      && (forall k :: 0 <= k < |c| ==> |c[k]| >= 2 && c[k][0] == 'd' && c[k][1] == '=')
      && (forall k :: 0 <= k < |d| ==> |d[k]| >= 2 && d[k][0] == 'f' && d[k][1] == '=')
  {
  }

  /** Looking up a one-letter key finds it in the part that owns it, if anywhere. */
  lemma FindOwnPart(st: GeneratorState, urlEncode: string -> string, key: char)
    ensures key == 's' ==> Find(UrlParams(st, urlEncode), [key]) == Find(SizePart(st), [key])
    ensures key == 'r' ==> Find(UrlParams(st, urlEncode), [key]) == Find(RatingPart(st), [key])
    ensures key == 'd' ==> Find(UrlParams(st, urlEncode), [key]) == Find(ImagePart(st, urlEncode), [key])
    ensures key == 'f' ==> Find(UrlParams(st, urlEncode), [key]) == Find(ForcePart(st), [key])
  {
    FindInParts(st, urlEncode, [key]);
    PartShapes(st, urlEncode);
    FindOneLetterKey(SizePart(st), 's', key);
    FindOneLetterKey(RatingPart(st), 'r', key);
    FindOneLetterKey(ImagePart(st, urlEncode), 'd', key);
    FindOneLetterKey(ForcePart(st), 'f', key);
  }

  /** `s` carries the size exactly when the size is positive. */
  lemma SizeParamValue(st: GeneratorState, urlEncode: string -> string)
    ensures Find(UrlParams(st, urlEncode), "s")
         == if st.size > 0 then Present(NatToDecimal(st.size)) else Absent
  {
    FindOwnPart(st, urlEncode, 's');
    PartShapes(st, urlEncode);
    FindOneLetterKey(SizePart(st), 's', 's');
  }

  /** `r` follows the rating table: g, pg, r, x, and no `r` for Default. */
  lemma RatingParamValue(st: GeneratorState, urlEncode: string -> string)
    ensures Find(UrlParams(st, urlEncode), "r")
         == match st.displayRating
            case Default => Absent
            case G => Present("g")
            case PG => Present("pg")
            case R => Present("r")
            case X => Present("x")
  {
    FindOwnPart(st, urlEncode, 'r');
    PartShapes(st, urlEncode);
    FindOneLetterKey(RatingPart(st), 'r', 'r');
  }

  /** `d` is the token of a named policy, which wins over any custom image; under
      the logo policy it is the encoded custom image, and absent when that is blank. */
  lemma DefaultImageParamValue(st: GeneratorState, urlEncode: string -> string)
    ensures Find(UrlParams(st, urlEncode), "d")
         == match st.defaultDisplay
            case GravatarLogo =>
              if IsNullOrWhiteSpace(st.defaultImage) then Absent
              else Present(urlEncode(st.defaultImage.value))
            case None => Present("404")
            case MysteryMan => Present("mm")
            case IdentIcon => Present("identicon")
            case MonsterId => Present("monsterid")
            case Wavatar => Present("wavatar")
            case Retro => Present("retro")
  {
    FindOwnPart(st, urlEncode, 'd');
    PartShapes(st, urlEncode);
    FindOneLetterKey(ImagePart(st, urlEncode), 'd', 'd');
  }

  /** `f=y` appears exactly when the default image is forced. */
  lemma ForceParamValue(st: GeneratorState, urlEncode: string -> string)
    ensures Find(UrlParams(st, urlEncode), "f")
         == if st.forceDefaultImage then Present("y") else Absent
  {
    FindOwnPart(st, urlEncode, 'f');
    PartShapes(st, urlEncode);
    FindOneLetterKey(ForcePart(st), 'f', 'f');
  }

  /** The rank of a parameter's key in the fixed order s, r, d, f. */
  function KeyRank(p: string): nat
  {
    if p == [] then 4
    else if p[0] == 's' then 0
    else if p[0] == 'r' then 1
    else if p[0] == 'd' then 2
    else if p[0] == 'f' then 3
    else 4
  }

  /** Every parameter is `key=value` with key one of s, r, d, f, and the keys
      appear in that order, each at most once. */
  lemma ParamsOrdered(st: GeneratorState, urlEncode: string -> string)
    ensures var ps := UrlParams(st, urlEncode);
      && |ps| <= 4
      && (forall i :: 0 <= i < |ps| ==> KeyRank(ps[i]) < 4 && |ps[i]| >= 2 && ps[i][1] == '=')
      && (forall i, j :: 0 <= i < j < |ps| ==> KeyRank(ps[i]) < KeyRank(ps[j]))
  {
    ParamParts(st, urlEncode);
    PartShapes(st, urlEncode);
    var a, b, c, d := SizePart(st), RatingPart(st), ImagePart(st, urlEncode), ForcePart(st);
    var ps := a + b + c + d;
    forall i | 0 <= i < |ps|
      ensures KeyRank(ps[i]) == (if i < |a| then 0
                                 else if i < |a| + |b| then 1
                                 else if i < |a| + |b| + |c| then 2
                                 else 3)
      ensures |ps[i]| >= 2 && ps[i][1] == '='
    {
      if i < |a| {
        assert ps[i] == a[i];
      } else if i < |a| + |b| {
        assert ps[i] == b[i - |a|];
      } else if i < |a| + |b| + |c| {
        assert ps[i] == c[i - |a| - |b|];
      } else {
        assert ps[i] == d[i - |a| - |b| - |c|];
      }
    }
  }

  /** A named default policy makes the custom image irrelevant: changing it does
      not change the URL. */
  lemma NamedPolicyOverridesCustomImage(st: GeneratorState, custom: NullableString, platform: Platform)
    requires st.defaultDisplay != GravatarLogo
    ensures RenderUrl(st.(defaultImage := custom), platform) == RenderUrl(st, platform)
  {
    assert UrlParams(st.(defaultImage := custom), platform.urlEncode) == UrlParams(st, platform.urlEncode);
  }

  // ---------------------------------------------------------------------------
  // The digest

  /** An MD5 hash of 16 bytes gives 32 lower-case hex characters, from which the
      hash can be read back. */
  lemma DigestShape(platform: Platform, email: string)
    requires |platform.computeHash(platform.getBytes(email))| == 16
    ensures var digest := Digest(platform, email);
      && |digest| == 32
      && (forall i :: 0 <= i < 32 ==> IsHexDigit(digest[i]))
      && ParseHex(digest) == platform.computeHash(platform.getBytes(email))
  {
    ParseHexOf(platform.computeHash(platform.getBytes(email)));
  }

  // ---------------------------------------------------------------------------
  // The whole URL

  /** The part of the URL before any file type or query: scheme, path and digest. */
  function Head(st: GeneratorState, platform: Platform): string
    requires st.email.Str?
  {
    Scheme(st.useHttps) + AvatarPath + Digest(platform, st.email.value)
  }

  lemma NoQuestionMarkInHead(st: GeneratorState, platform: Platform)
    requires st.email.Str?
    ensures '?' !in Head(st, platform) + (if st.appendFileType then ".jpg" else "")
  {
    var digest := Digest(platform, st.email.value);
    assert forall i :: 0 <= i < |digest| ==> digest[i] != '?';
    var ext := if st.appendFileType then ".jpg" else "";
    assert '?' !in Scheme(st.useHttps) && '?' !in AvatarPath && '?' !in ext;
    AbsentFromParts('?', Scheme(st.useHttps), AvatarPath, digest, ext);
  }

  lemma AbsentFromParts(c: char, a: string, b: string, d: string, e: string)
    requires c !in a && c !in b && c !in d && c !in e
    ensures c !in a + b + d + e
  {
  }

  /** Reading the URL fails exactly for a null email or a size outside [0, 512];
      otherwise it is the head, ".jpg" when the file type is appended, and the
      query. */
  lemma RenderOutcome(st: GeneratorState, platform: Platform)
    ensures RenderUrl(st, platform).Failure? <==> st.email.Null? || st.size < 0 || st.size > 512
    ensures RenderUrl(st, platform).Success? ==>
      RenderUrl(st, platform).value
        == Head(st, platform) + (if st.appendFileType then ".jpg" else "")
           + QueryString(UrlParams(st, platform.urlEncode))
  {
  }

  /** The URL starts with "https://" exactly when https is on, and with
      "http://" otherwise. */
  lemma SchemePrefix(st: GeneratorState, platform: Platform)
    requires RenderUrl(st, platform).Success?
    ensures var url := RenderUrl(st, platform).value;
      && (st.useHttps <==> |url| >= 8 && url[..8] == "https://")
      && (!st.useHttps ==> url[..7] == "http://")
  {
    var ext := if st.appendFileType then ".jpg" else "";
    var query := QueryString(UrlParams(st, platform.urlEncode));
    var digest := Digest(platform, st.email.value);
    Regroup(Scheme(st.useHttps), AvatarPath, digest, ext, query);
    SchemeThenRest(st.useHttps, AvatarPath + digest + ext + query);
  }

  lemma Regroup(a: string, b: string, c: string, d: string, e: string)
    ensures a + b + c + d + e == a + (b + c + d + e)
  {
  }

  lemma SchemeThenRest(useHttps: bool, rest: string)
    ensures var url := Scheme(useHttps) + rest;
      && (useHttps <==> |url| >= 8 && url[..8] == "https://")
      && (!useHttps ==> url[..7] == "http://")
  {
    var url := Scheme(useHttps) + rest;
    if useHttps {
      assert url[..8] == Scheme(useHttps);
    } else {
      assert url[..7] == Scheme(useHttps);
      assert url[4] == ':';
    }
  }

  /** After the scheme comes "gravatar.com/avatar/" and then the digest, which
      depends on the email alone. */
  lemma DigestPosition(st: GeneratorState, platform: Platform)
    requires RenderUrl(st, platform).Success?
    ensures var url := RenderUrl(st, platform).value;
      var k := |Scheme(st.useHttps)| + |AvatarPath|;
      && |url| >= k + |Digest(platform, st.email.value)|
      && url[|Scheme(st.useHttps)|..k] == AvatarPath
      && url[k..k + |Digest(platform, st.email.value)|] == Digest(platform, st.email.value)
  {
    var ext := if st.appendFileType then ".jpg" else "";
    var query := QueryString(UrlParams(st, platform.urlEncode));
    assert RenderUrl(st, platform).value
        == Scheme(st.useHttps) + AvatarPath + Digest(platform, st.email.value) + ext + query;
    MiddleSlices(Scheme(st.useHttps), AvatarPath, Digest(platform, st.email.value), ext, query);
  }

  lemma MiddleSlices(a: string, b: string, c: string, d: string, e: string)
    ensures var s := a + b + c + d + e;
      && s[|a|..|a| + |b|] == b
      && s[|a| + |b|..|a| + |b| + |c|] == c
  {
    var s := a + b + c + d + e;
    assert s == a + (b + (c + (d + e)));
    assert s[|a|..] == b + (c + (d + e));
    assert s[|a| + |b|..] == c + (d + e);
  }

  /** ".jpg" follows the digest exactly when the file type is appended: without
      it the digest is followed by the query, which starts with '?', or by nothing. */
  lemma FileTypeAfterDigest(st: GeneratorState, platform: Platform)
    requires RenderUrl(st, platform).Success?
    ensures var url := RenderUrl(st, platform).value;
      var n := |Head(st, platform)|;
      st.appendFileType <==> |url| >= n + 4 && url[n..n + 4] == ".jpg"
  {
    var query := QueryString(UrlParams(st, platform.urlEncode));
    assert query == [] || query[0] == '?';
    ExtensionAfterHead(Head(st, platform), st.appendFileType, query);
  }

  lemma ExtensionAfterHead(head: string, appendFileType: bool, query: string)
    requires query == [] || query[0] == '?'
    ensures var url := head + (if appendFileType then ".jpg" else "") + query;
      appendFileType <==> |url| >= |head| + 4 && url[|head|..|head| + 4] == ".jpg"
  {
    var ext := if appendFileType then ".jpg" else "";
    var url := head + ext + query;
    assert url == head + (ext + query);
    if appendFileType {
      assert url[|head|..|head| + 4] == ext;
    } else if |url| >= |head| + 4 {
      assert url[|head|] == query[0];
    }
  }

  /** A '?' appears in the URL exactly when some parameter applies. */
  lemma QuestionMarkIffParams(st: GeneratorState, platform: Platform)
    requires RenderUrl(st, platform).Success?
    ensures '?' in RenderUrl(st, platform).value <==> UrlParams(st, platform.urlEncode) != []
  {
    var front := Head(st, platform) + (if st.appendFileType then ".jpg" else "");
    var query := QueryString(UrlParams(st, platform.urlEncode));
    assert RenderUrl(st, platform).value == front + query;
    NoQuestionMarkInHead(st, platform);
    if query != [] {
      assert query[0] == '?';
    }
  }

  /** The first '?' of the URL is the one that opens the query. */
  lemma QueryAfterFirstQuestionMark(st: GeneratorState, platform: Platform)
    requires RenderUrl(st, platform).Success?
    requires UrlParams(st, platform.urlEncode) != []
    ensures var url := RenderUrl(st, platform).value;
      '?' in url && url[IndexOf(url, '?') + 1..] == Join(UrlParams(st, platform.urlEncode))
  {
    var url := RenderUrl(st, platform).value;
    var front := Head(st, platform) + (if st.appendFileType then ".jpg" else "");
    var joined := Join(UrlParams(st, platform.urlEncode));
    assert url == front + "?" + joined;
    assert url[|front|] == '?';
    NoQuestionMarkInHead(st, platform);
    assert url[..|front|] == front;
    var k := IndexOf(url, '?');
    assert k == |front|;
    assert url[k + 1..] == joined;
  }

  /** No parameter is empty or holds '&', provided the encoded custom image holds none. */
  lemma ParamsFreeOfSeparator(st: GeneratorState, urlEncode: string -> string)
    requires st.defaultImage.Str? ==> '&' !in urlEncode(st.defaultImage.value)
    ensures var ps := UrlParams(st, urlEncode);
      forall k :: 0 <= k < |ps| ==> |ps[k]| >= 1 && '&' !in ps[k]
  {
    ParamParts(st, urlEncode);
    PartShapes(st, urlEncode);
    var a, b, c, d := SizePart(st), RatingPart(st), ImagePart(st, urlEncode), ForcePart(st);
    SizePartFree(st);
    RatingPartFree(st);
    ImagePartFree(st, urlEncode);
    var ps := a + b + c + d;
    forall k | 0 <= k < |ps|
      ensures |ps[k]| >= 1 && '&' !in ps[k]
    {
      if k < |a| {
        assert ps[k] == a[k];
      } else if k < |a| + |b| {
        assert ps[k] == b[k - |a|];
      } else if k < |a| + |b| + |c| {
        assert ps[k] == c[k - |a| - |b|];
      } else {
        assert ps[k] == d[k - |a| - |b| - |c|];
      }
    }
  }

  lemma SizePartFree(st: GeneratorState)
    ensures forall k :: 0 <= k < |SizePart(st)| ==> '&' !in SizePart(st)[k]
  {
    if st.size > 0 {
      var digits := NatToDecimal(st.size);
      assert forall i :: 0 <= i < |digits| ==> digits[i] != '&';
      assert SizePart(st)[0] == "s=" + digits;
    }
  }

  lemma RatingPartFree(st: GeneratorState)
    ensures forall k :: 0 <= k < |RatingPart(st)| ==> '&' !in RatingPart(st)[k]
  {
  }

  lemma ImagePartFree(st: GeneratorState, urlEncode: string -> string)
    requires st.defaultImage.Str? ==> '&' !in urlEncode(st.defaultImage.value)
    ensures forall k :: 0 <= k < |ImagePart(st, urlEncode)| ==> '&' !in ImagePart(st, urlEncode)[k]
  {
  }

  /** Everything after the first '?' splits at '&' back into the parameters, in
      order, and neither starts nor ends with '&', provided the encoded custom
      image holds no '&'. */
  lemma QueryRoundTrip(st: GeneratorState, platform: Platform)
    requires RenderUrl(st, platform).Success?
    requires UrlParams(st, platform.urlEncode) != []
    requires st.defaultImage.Str? ==> '&' !in platform.urlEncode(st.defaultImage.value)
    ensures var url := RenderUrl(st, platform).value;
      '?' in url &&
      var q := url[IndexOf(url, '?') + 1..];
      && Split(q) == UrlParams(st, platform.urlEncode)
      && |q| > 0 && q[0] != '&' && q[|q| - 1] != '&'
  {
    var ps := UrlParams(st, platform.urlEncode);
    QueryAfterFirstQuestionMark(st, platform);
    ParamsFreeOfSeparator(st, platform.urlEncode);
    SplitJoin(ps);
    JoinHasNoOuterSeparator(ps);
  }

  // ---------------------------------------------------------------------------
  // Worked examples

  lemma Decimal100()
    ensures NatToDecimal(100) == "100"
  {
    assert NatToDecimal(1) == "1";
    assert NatToDecimal(10) == "10";
  }

  /** The parameters of a generator sized 100, rated G, with the identicon policy. */
  lemma SampleParams(st: GeneratorState, urlEncode: string -> string)
    requires st.size == 100 && st.displayRating == G && st.defaultDisplay == IdentIcon
    ensures UrlParams(st, urlEncode)
         == ["s=100", "r=g", "d=identicon"] + (if st.forceDefaultImage then ["f=y"] else [])
  {
    ParamParts(st, urlEncode);
    Decimal100();
    assert "s=" + NatToDecimal(100) == "s=100";
    assert SizePart(st) == ["s=100"];
    assert RatingPart(st) == ["r=g"];
    assert ImagePart(st, urlEncode) == ["d=identicon"];
  }

  /** The query of a generator sized 100, rated G, with the identicon policy. */
  lemma SampleQuery(st: GeneratorState, urlEncode: string -> string)
    requires st.size == 100 && st.displayRating == G && st.defaultDisplay == IdentIcon
    ensures QueryString(UrlParams(st, urlEncode))
         == if st.forceDefaultImage then "?s=100&r=g&d=identicon&f=y" else "?s=100&r=g&d=identicon"
  {
    SampleParams(st, urlEncode);
    var three: seq<string> := ["s=100", "r=g", "d=identicon"];
    if st.forceDefaultImage {
      SampleQueryFour();
    } else {
      assert UrlParams(st, urlEncode) == three;
      SampleQueryThree();
    }
  }

  lemma SampleQueryThree()
    ensures QueryString(["s=100", "r=g", "d=identicon"]) == "?s=100&r=g&d=identicon"
  {
    SampleJoinThree();
    assert "?" + "s=100&r=g&d=identicon" == "?s=100&r=g&d=identicon";
  }

  lemma SampleQueryFour()
    ensures QueryString(["s=100", "r=g", "d=identicon"] + ["f=y"]) == "?s=100&r=g&d=identicon&f=y"
  {
    SampleJoinFour();
    assert "?" + "s=100&r=g&d=identicon&f=y" == "?s=100&r=g&d=identicon&f=y";
  }

  lemma SampleJoinThree()
    ensures Join(["s=100", "r=g", "d=identicon"]) == "s=100&r=g&d=identicon"
  {
    JoinThree("s=100", "r=g", "d=identicon");
    assert "s=100" + "&" + "r=g" + "&" + "d=identicon" == "s=100&r=g&d=identicon";
  }

  lemma SampleJoinFour()
    ensures Join(["s=100", "r=g", "d=identicon"] + ["f=y"]) == "s=100&r=g&d=identicon&f=y"
  {
    JoinFour("s=100", "r=g", "d=identicon", "f=y");
    assert "s=100" + "&" + "r=g" + "&" + "d=identicon" + "&" + "f=y" == "s=100&r=g&d=identicon&f=y";
  }

  lemma JoinThree(a: string, b: string, c: string)
    ensures Join([a, b, c]) == a + "&" + b + "&" + c
  {
    assert [a, b, c][1..] == [b, c];
    assert [b, c][1..] == [c];
    assert Join([c]) == c;
    assert Join([b, c]) == b + "&" + c;
    assert Join([a, b, c]) == a + "&" + (b + "&" + c);
  }

  lemma JoinFour(a: string, b: string, c: string, d: string)
    ensures Join([a, b, c] + [d]) == a + "&" + b + "&" + c + "&" + d
  {
    var four := [a, b, c] + [d];
    assert four == [a, b, c, d];
    assert four[1..] == [b, c, d];
    assert [b, c, d][1..] == [c, d];
    assert [c, d][1..] == [d];
    assert Join([d]) == d;
    assert Join([c, d]) == c + "&" + d;
    assert Join([b, c, d]) == b + "&" + (c + "&" + d);
    assert Join(four) == a + "&" + (b + "&" + (c + "&" + d));
  }

  lemma HttpsUrlText(st: GeneratorState, platform: Platform)
    requires st.email.Str? && 0 <= st.size <= MaxSize && st.useHttps
    ensures RenderUrl(st, platform)
         == Success("https://gravatar.com/avatar/" + Digest(platform, st.email.value)
                    + ((if st.appendFileType then ".jpg" else "") + QueryString(UrlParams(st, platform.urlEncode))))
  {
    HttpsText(Digest(platform, st.email.value), if st.appendFileType then ".jpg" else "",
              QueryString(UrlParams(st, platform.urlEncode)));
  }

  lemma HttpsText(digest: string, ext: string, query: string)
    ensures Scheme(true) + AvatarPath + digest + ext + query == "https://gravatar.com/avatar/" + digest + (ext + query)
  {
    assert Scheme(true) + AvatarPath == "https://gravatar.com/avatar/";
  }

  /** Secure, size 100, rating G, identicon: all three parameters in order. */
  lemma SecureSizedRatedIdenticon(platform: Platform)
    ensures RenderUrl(InitialState(Str("a@b.com"), true).(size := 100, displayRating := G, defaultDisplay := IdentIcon), platform)
         == Success("https://gravatar.com/avatar/" + Digest(platform, "a@b.com") + "?s=100&r=g&d=identicon")
  {
    var st := InitialState(Str("a@b.com"), true).(size := 100, displayRating := G, defaultDisplay := IdentIcon);
    var digest := Digest(platform, "a@b.com");
    SampleQuery(st, platform.urlEncode);
    RenderOutcome(st, platform);
    assert RenderUrl(st, platform).Success?;
    assert RenderUrl(st, platform).value == Scheme(true) + AvatarPath + digest + "" + "?s=100&r=g&d=identicon";
    HttpsText(digest, "", "?s=100&r=g&d=identicon");
    assert "" + "?s=100&r=g&d=identicon" == "?s=100&r=g&d=identicon";
  }

  /** Plain http and no options: no query string at all. */
  lemma PlainNoOptions(platform: Platform)
    ensures RenderUrl(InitialState(Str("a@b.com"), false), platform)
         == Success("http://gravatar.com/avatar/" + Digest(platform, "a@b.com"))
  {
    var st := InitialState(Str("a@b.com"), false);
    var digest := Digest(platform, "a@b.com");
    assert UrlParams(st, platform.urlEncode) == [];
    assert RenderUrl(st, platform) == Success(Scheme(false) + AvatarPath + digest + "" + "");
    HttpText(digest);
  }

  lemma HttpText(digest: string)
    ensures Scheme(false) + AvatarPath + digest + "" + "" == "http://gravatar.com/avatar/" + digest
  {
    assert Scheme(false) + AvatarPath == "http://gravatar.com/avatar/";
  }

  /** All options at once; whatever the custom image, the named policy hides it. */
  lemma AllOptions(st: GeneratorState, platform: Platform)
    requires st.email == Str("a@b.com") && st.useHttps && st.size == 100 && st.displayRating == G
    requires st.defaultDisplay == IdentIcon && st.appendFileType && st.forceDefaultImage
    ensures RenderUrl(st, platform)
         == Success("https://gravatar.com/avatar/" + Digest(platform, "a@b.com") + ".jpg?s=100&r=g&d=identicon&f=y")
  {
    SampleQuery(st, platform.urlEncode);
    HttpsUrlText(st, platform);
    JpgThenQuery(Digest(platform, "a@b.com"));
  }

  lemma JpgThenQuery(digest: string)
    ensures "https://gravatar.com/avatar/" + digest + (".jpg" + "?s=100&r=g&d=identicon&f=y")
         == "https://gravatar.com/avatar/" + digest + ".jpg?s=100&r=g&d=identicon&f=y"
  {
    assert ".jpg" + "?s=100&r=g&d=identicon&f=y" == ".jpg?s=100&r=g&d=identicon&f=y";
  }

  /** The fluent chain of the generator: a rejected size changes nothing, later
      writes win, a named policy hides the custom image, and flags stay set. */
  method ChainExample(platform: Platform) returns (url: Result<string>)
    ensures url == Success("https://gravatar.com/avatar/" + Digest(platform, "a@b.com") + ".jpg?s=100&r=g&d=identicon&f=y")
  {
    var g := new GravatarGenerator(Str("a@b.com"), true);
    var sized := g.Size(100);
    sized := g.Size(600);
    var same := g.Rating(X);
    same := g.Rating(G);
    same := g.DefaultImageUrl(Str("https://example.com/avatar.png"));
    same := same.DefaultImage(IdentIcon);
    same := same.AppendFileType();
    same := same.ForceDefaultImage();
    same := same.AppendFileType();
    url := g.Url(platform);
    AllOptions(g.State(), platform);
  }
}
