/** The Gravatar URL builder: a fluent generator whose setters record avatar
    options and whose `Url` renders them as
    scheme + "gravatar.com/avatar/" + hex digest [+ ".jpg"] [+ "?" params]. */
module Gravatar {
  import opened Formatting
  import opened Query

  /** What Gravatar shows when the email has no image of its own. */
  datatype DefaultGravatar = GravatarLogo | None | MysteryMan | IdentIcon | MonsterId | Wavatar | Retro

  /** The highest content rating the caller accepts; Default leaves it to Gravatar. */
  datatype GravatarRating = Default | G | PG | R | X

  /** The exceptions the generator can raise, with the parameter name each reports. */
  datatype Error = ArgumentOutOfRange(paramName: string) | ArgumentNull(paramName: string)

  datatype Result<T> = Success(value: T) | Failure(error: Error)

  /** The library calls the generator makes but does not define:
      `Encoding.UTF8.GetBytes`, MD5 `ComputeHash` and `HttpUtility.UrlEncode`. */
  datatype Platform = Platform(
    getBytes: string -> seq<byte>,
    computeHash: seq<byte> -> seq<byte>,
    urlEncode: string -> string)

  /** The largest size, in pixels, the generator accepts. */
  const MaxSize := 512

  const AvatarPath := "gravatar.com/avatar/"

  /** Everything a generator holds, as one value. */
  datatype GeneratorState = GeneratorState(
    email: NullableString,
    useHttps: bool,
    size: int,
    defaultImage: NullableString,
    appendFileType: bool,
    forceDefaultImage: bool,
    displayRating: GravatarRating,
    defaultDisplay: DefaultGravatar)

  /** A freshly constructed generator: only email and scheme are set, every other
      field has its zero value (size 0, no custom image, flags off, Default
      rating, GravatarLogo). */
  function InitialState(email: NullableString, useHttps: bool): GeneratorState
  {
    GeneratorState(email, useHttps, 0, Null, false, false, Default, GravatarLogo)
  }

  function Scheme(useHttps: bool): string
  {
    if useHttps then "https://" else "http://"
  }

  /** The lower-case hex of the MD5 hash of the UTF-8 bytes of the email. */
  function Digest(platform: Platform, email: string): string
  {
    HexOf(platform.computeHash(platform.getBytes(email)))
  }

  /** The `r=` parameter for a rating; null for Default. */
  function RatingParam(rating: GravatarRating): (p: NullableString)
    ensures p.Null? <==> rating == Default
    ensures p.Str? ==> HasKey(p.value, "r") && !IsNullOrWhiteSpace(p)
  {
    match rating
    case G => Str("r=g")
    case PG => Str("r=pg")
    case R => Str("r=r")
    case X => Str("r=x")
    case Default => Null
  }

  /** The `d=` parameter: a named policy gives its fixed token; the logo policy
      gives the URL-encoded custom image, or null when that is blank. */
  function DefaultImageParam(display: DefaultGravatar, custom: NullableString, urlEncode: string -> string): (p: NullableString)
    ensures p.Null? <==> display == GravatarLogo && IsNullOrWhiteSpace(custom)
    ensures p.Str? ==> HasKey(p.value, "d") && !IsNullOrWhiteSpace(p)
  {
    match display
    case IdentIcon => Str("d=identicon")
    case MonsterId => Str("d=monsterid")
    case MysteryMan => Str("d=mm")
    case None => Str("d=404")
    case Retro => Str("d=retro")
    case Wavatar => Str("d=wavatar")
    case GravatarLogo => if IsNullOrWhiteSpace(custom) then Null else Str("d=" + urlEncode(custom.value))
  }

  /** The query parameters in the order s, r, d, f, each only when it applies. */
  function UrlParams(st: GeneratorState, urlEncode: string -> string): (ps: seq<string>)
    ensures |ps| <= 4
    ensures ps == [] <==> st.size <= 0 && st.displayRating == Default && !st.forceDefaultImage
                          && st.defaultDisplay == GravatarLogo && IsNullOrWhiteSpace(st.defaultImage)
  {
    var ratingParam := RatingParam(st.displayRating);
    var defaultImageParam := DefaultImageParam(st.defaultDisplay, st.defaultImage, urlEncode);
    (if st.size > 0 then ["s=" + NatToDecimal(st.size)] else [])
    + (if !IsNullOrWhiteSpace(ratingParam) then [ratingParam.value] else [])
    + (if !IsNullOrWhiteSpace(defaultImageParam) then [defaultImageParam.value] else [])
    + (if st.forceDefaultImage then ["f=y"] else [])
  }

  /** The text of the `Url` property, or the exception reading it raises: a null
      email fails in the hashing, before the size is re-checked. */
  function RenderUrl(st: GeneratorState, platform: Platform): Result<string>
  {
    if st.email.Null? then Failure(ArgumentNull("s"))
    else if st.size < 0 || st.size > MaxSize then Failure(ArgumentOutOfRange("Size"))
    else
      Success(Scheme(st.useHttps) + AvatarPath + Digest(platform, st.email.value)
              + (if st.appendFileType then ".jpg" else "")
              + QueryString(UrlParams(st, platform.urlEncode)))
  }

  // ---------------------------------------------------------------------------
  // The generator object

  class GravatarGenerator {
    const email: NullableString
    const useHttps: bool
    var size: int
    var defaultImage: NullableString
    var appendFileType: bool
    var forceDefaultImage: bool
    var displayRating: GravatarRating
    var defaultDisplay: DefaultGravatar

    /** The size stays within what the `Size` setter admits. */
    predicate Valid()
      reads this
    {
      0 <= size <= MaxSize
    }

    function State(): GeneratorState
      reads this
    {
      GeneratorState(email, useHttps, size, defaultImage, appendFileType, forceDefaultImage,
                     displayRating, defaultDisplay)
    }

    constructor (email: NullableString, useHttps: bool)
      ensures State() == InitialState(email, useHttps)
      ensures Valid()
    {
      this.email := email;
      this.useHttps := useHttps;
      size := 0;
      defaultImage := Null;
      appendFileType := false;
      forceDefaultImage := false;
      displayRating := Default;
      defaultDisplay := GravatarLogo;
    }

    /** Sets the size; a size outside [0, MaxSize] raises and changes nothing. */
    method Size(size: int) returns (r: Result<GravatarGenerator>)
      modifies this
      ensures r.Failure? <==> size < 0 || size > MaxSize
      ensures r.Failure? ==> r.error == ArgumentOutOfRange("size") && State() == old(State())
      ensures r.Success? ==> r.value == this && State() == old(State()).(size := size)
      ensures Valid() <==> old(Valid()) || r.Success?
    {
      if size < 0 || size > MaxSize {
        return Failure(ArgumentOutOfRange("size"));
      }
      this.size := size;
      return Success(this);
    }

    /** Sets the custom default-image URL (null allowed). */
    method DefaultImageUrl(defaultImage: NullableString) returns (self: GravatarGenerator)
      modifies this
      ensures self == this
      ensures State() == old(State()).(defaultImage := defaultImage)
    {
      this.defaultImage := defaultImage;
      return this;
    }

    /** Sets the named default-image policy. */
    method DefaultImage(defaultImage: DefaultGravatar) returns (self: GravatarGenerator)
      modifies this
      ensures self == this
      ensures State() == old(State()).(defaultDisplay := defaultImage)
    {
      defaultDisplay := defaultImage;
      return this;
    }

    method Rating(rating: GravatarRating) returns (self: GravatarGenerator)
      modifies this
      ensures self == this
      ensures State() == old(State()).(displayRating := rating)
    {
      displayRating := rating;
      return this;
    }

    /** Turns on the ".jpg" suffix; never turns it off. */
    method AppendFileType() returns (self: GravatarGenerator)
      modifies this
      ensures self == this
      ensures State() == old(State()).(appendFileType := true)
    {
      appendFileType := true;
      return this;
    }

    /** Turns on `f=y`; never turns it off. */
    method ForceDefaultImage() returns (self: GravatarGenerator)
      modifies this
      ensures self == this
      ensures State() == old(State()).(forceDefaultImage := true)
    {
      forceDefaultImage := true;
      return this;
    }

    /** The `Url` property: never fails on a valid generator with an email. */
    method Url(platform: Platform) returns (r: Result<string>)
      ensures r == RenderUrl(State(), platform)
      ensures r.Failure? <==> email.Null? || !Valid()
    {
      var prefix := if useHttps then "https://" else "http://";
      var digest := Encode(platform);
      if digest.Failure? {
        return Failure(digest.error);
      }
      var url := prefix + AvatarPath + digest.value;
      if appendFileType {
        url := url + ".jpg";
      }
      var query := BuildUrlParams(platform.urlEncode);
      if query.Failure? {
        return Failure(query.error);
      }
      url := url + query.value;
      assert prefix == Scheme(useHttps);
      assert url == Scheme(useHttps) + AvatarPath + digest.value
                    + (if appendFileType then ".jpg" else "") + query.value;
      return Success(url);
    }

    /** Hashes the email and writes the hash as lower-case hex, byte by byte. */
    method Encode(platform: Platform) returns (r: Result<string>)
      ensures email.Null? ==> r == Failure(ArgumentNull("s"))
      ensures email.Str? ==> r == Success(Digest(platform, email.value))
    {
      if email.Null? {
        return Failure(ArgumentNull("s"));
      }
      var hash := platform.computeHash(platform.getBytes(email.value));
      var sb := "";
      for i := 0 to |hash|
        invariant sb == HexOf(hash[..i])
      {
        assert hash[..i + 1][..i] == hash[..i];
        sb := sb + HexByte(hash[i]);
      }
      assert hash[..|hash|] == hash;
      return Success(sb);
    }

    /** Re-checks the size, collects the applicable parameters and joins them
        behind '?' with '&' between them. */
    method BuildUrlParams(urlEncode: string -> string) returns (r: Result<string>)
      ensures size < 0 || size > MaxSize ==> r == Failure(ArgumentOutOfRange("Size"))
      ensures 0 <= size <= MaxSize ==> r == Success(QueryString(UrlParams(State(), urlEncode)))
    {
      if size < 0 || size > MaxSize {
        return Failure(ArgumentOutOfRange("Size"));
      }
      var defaultImageParam := DefaultImageParam(defaultDisplay, defaultImage, urlEncode);
      var ratingParam := RatingParam(displayRating);

      var urlParams: seq<string> := [];
      assert IsNullOrWhiteSpace(ratingParam) <==> ratingParam.Null?;
      assert IsNullOrWhiteSpace(defaultImageParam) <==> defaultImageParam.Null?;
      if size > 0 {
        urlParams := urlParams + ["s=" + NatToDecimal(size)];
      }
      if !IsNullOrWhiteSpace(ratingParam) {
        urlParams := urlParams + [ratingParam.value];
      }
      if !IsNullOrWhiteSpace(defaultImageParam) {
        urlParams := urlParams + [defaultImageParam.value];
      }
      if forceDefaultImage {
        urlParams := urlParams + ["f=y"];
      }
      assert urlParams == UrlParams(State(), urlEncode);

      if |urlParams| == 0 {
        return Success("");
      }

      var paramString := JoinParams(urlParams);
      return Success(paramString);
    }

    /** The join loop of `BuildUrlParams`: '?' and then each parameter, with '&'
        after every one but the last. */
    static method JoinParams(urlParams: seq<string>) returns (paramString: string)
      ensures paramString == "?" + Join(urlParams)
    {
      paramString := "?";
      for i := 0 to |urlParams|
        invariant i < |urlParams| ==> paramString == "?" + Terminated(urlParams[..i])
        invariant i == |urlParams| ==> paramString == "?" + Join(urlParams)
      {
        assert urlParams[..i + 1][..i] == urlParams[..i];
        paramString := paramString + urlParams[i];
        if i < |urlParams| - 1 {
          paramString := paramString + "&";
        } else {
          JoinByLast(urlParams);
        }
      }
    }
  }
}
