# Gravatar URL generator

A Dafny model of `GravatarGenerator` (Gravatar.cs), the fluent builder that
turns an email address and a handful of display options into a Gravatar
avatar URL:

    scheme + "gravatar.com/avatar/" + hex(MD5(UTF-8(email))) [+ ".jpg"] [+ "?" + s, r, d, f joined by "&"]

The project is split into these modules:

- `Formatting` (formatting.dfy) covers the .NET text pieces the builder relies on:
  - nullable strings and `string.IsNullOrWhiteSpace`;
  - the `"x2"` byte format, with a reader that inverts it;
  - the decimal text of a non-negative `int`, with a reader that inverts it.
- `Query` (query.dfy) joins parameters with `&`. It also splits a joined text back
  apart and looks a `key=value` parameter up by its key.
- `Gravatar` (gravatar.dfy) holds:
  - the two enums `DefaultGravatar` and `GravatarRating`;
  - the generator's state as a value, `GeneratorState`;
  - the pure tables `RatingParam` (`GetRatingParam`) and `DefaultImageParam`
    (`GetDefaultImageParam`);
  - the pure specification of the rendered URL, `UrlParams` and `RenderUrl`;
  - the class `GravatarGenerator`, whose chained setters update its fields in
    place and return `this`. `Encode` and `JoinParams` run the source's loops
    and are proved against `HexOf` and `Join`; `Url` and `BuildUrlParams` are
    proved against `RenderUrl` and `QueryString`.
- `GravatarProperties` (gravatar_properties.dfy) states what the rendered URL
  promises:
  - the URL's layout;
  - the digest's shape and that the hash can be recovered from it;
  - each parameter's value, their order, and that the query can be read back;
  - that a named default policy overrides a custom image;
  - worked examples, including a complete fluent chain.

A thrown exception is modelled as `Failure(error)` of a `Result`. The error
records the exception kind and its parameter name. Three library calls become
the fields of a `Platform` value passed in by the caller:

- `Encoding.UTF8.GetBytes`;
- MD5 `ComputeHash`;
- `HttpUtility.UrlEncode`.

A null email makes `GetBytes` throw `ArgumentNullException("s")`. The hashing
in `Url` runs before the size re-check in `BuildUrlParams`, so a null email is
reported first.

A named default policy takes precedence over a custom default-image URL.
The custom URL is used only under `GravatarLogo` (Gravatar.cs:171-179;
`NamedPolicyOverridesCustomImage`). The size check admits 0 although its
message says "between 1 and 512". A size of 0 renders no `s=` parameter.

## Model

| member | source | states |
|---|---|---|
| Gravatar.GravatarGenerator.constructor | Gravatar.cs:72-85 | a new generator holds the given email and scheme and the zero values of every other field (size 0, no custom image, both flags off, rating Default, policy GravatarLogo), and satisfies the size invariant |
| Gravatar.GravatarGenerator.Size | Gravatar.cs:103-110 | fails with ArgumentOutOfRange("size") exactly when the size is below 0 or above 512, and then changes nothing; otherwise it sets only the size and returns the same generator; the invariant 0 <= size <= 512 holds afterwards iff it held before or the call succeeded |
| Gravatar.GravatarGenerator.DefaultImageUrl | Gravatar.cs:112-116 | sets only the custom default image (null allowed) and returns the same generator |
| Gravatar.GravatarGenerator.DefaultImage | Gravatar.cs:118-122 | sets only the default-display policy and returns the same generator |
| Gravatar.GravatarGenerator.Rating | Gravatar.cs:124-128 | sets only the rating and returns the same generator |
| Gravatar.GravatarGenerator.AppendFileType | Gravatar.cs:130-134 | sets the file-type flag to true, never clears it, changes nothing else; so repeating it changes nothing |
| Gravatar.GravatarGenerator.ForceDefaultImage | Gravatar.cs:136-140 | sets the force flag to true, never clears it, changes nothing else; so repeating it changes nothing |
| Gravatar.GravatarGenerator.Valid | Gravatar.cs:103-110 | the class invariant 0 <= size <= 512. The constructor establishes it, `Size` keeps it, and `Url` fails on a non-null email only when it is broken |
| Gravatar.GravatarGenerator.Url | Gravatar.cs:87-101 | the property's text is exactly RenderUrl of the current state. It fails exactly when the email is null or the size invariant is broken, so it never fails on a valid generator with an email |
| Gravatar.GravatarGenerator.Encode | Gravatar.cs:142-155 | a null email fails with ArgumentNull("s"); otherwise the byte-by-byte "x2" loop yields HexOf of the hash of the email's bytes |
| Gravatar.GravatarGenerator.BuildUrlParams | Gravatar.cs:183-214 | a size outside [0, 512] fails with ArgumentOutOfRange("Size"); otherwise the result is "" with no parameters and "?" plus the parameters s, r, d, f joined by "&" otherwise |
| Gravatar.GravatarGenerator.JoinParams | Gravatar.cs:204-213 | the join loop, which writes "&" after every parameter but the last, yields "?" followed by Join of the parameters |
| Gravatar.RatingParam | Gravatar.cs:157-167 | GetRatingParam gives null exactly for Default. Any other rating gives an `r=` token that is never blank. The token table itself is stated by GravatarProperties.RatingParamValue |
| Gravatar.DefaultImageParam | Gravatar.cs:169-181 | GetDefaultImageParam gives null exactly under GravatarLogo with a null or blank custom image. Otherwise it gives a `d=` token that is never blank. The token table is stated by GravatarProperties.DefaultImageParamValue |
| Gravatar.UrlParams | Gravatar.cs:188-199 | the collected list has at most four parameters. It is empty exactly when the size is at most 0, the rating is Default, the default image is not forced, and the policy is GravatarLogo with a null or blank custom image. Values and order are stated by the GravatarProperties lemmas |
| Gravatar.RenderUrl | Gravatar.cs:87-101 | the reference text of the `Url` getter. Its failures are stated by GravatarGenerator.Url. Its layout is stated by SchemePrefix, DigestPosition, FileTypeAfterDigest, QuestionMarkIffParams and QueryAfterFirstQuestionMark |
| Formatting.IsNullOrWhiteSpace | Gravatar.cs:194-196 | `string.IsNullOrWhiteSpace`: null, or every character white space. That the filters in BuildUrlParams drop no token is stated by RatingParam and DefaultImageParam |
| Formatting.HexByte | Gravatar.cs:151 | a byte's "x2" text is two lower-case hexadecimal digits whose value, high digit first, is the byte |
| Formatting.HexOf | Gravatar.cs:148-154 | the rendering of n bytes has 2n characters, all lower-case hexadecimal digits |
| Formatting.HexOfAt | Gravatar.cs:149-152 | byte k of the hash occupies characters 2k and 2k+1 of the rendering, in input order |
| Formatting.ParseHexOf | Gravatar.cs:148-154 | the hexadecimal rendering is lossless: reading it back gives the hash |
| Formatting.NatToDecimal | Gravatar.cs:193 | the decimal text of the size is non-empty, all digits, and has no leading zero unless the size is 0 |
| Formatting.DecimalRoundTrip | Gravatar.cs:193 | reading the decimal text of n gives back n |
| Query.JoinByLast | Gravatar.cs:204-213 | writing each parameter with a following "&" and the last one alone is the same as joining with "&" |
| Query.SplitJoin | Gravatar.cs:204-213 | cutting a joined text at every "&" gives back any non-empty list of parameters none of which contains "&" |
| Query.JoinHasNoOuterSeparator | Gravatar.cs:204-213 | a join of non-empty, "&"-free parameters neither starts nor ends with "&" |
| GravatarProperties.SizeParamValue | Gravatar.cs:192-193 | the `s` parameter carries the decimal size exactly when the size is positive, and is absent otherwise |
| GravatarProperties.RatingParamValue | Gravatar.cs:157-167 | the `r` parameter is g, pg, r or x for G, PG, R and X, and is absent for Default |
| GravatarProperties.DefaultImageParamValue | Gravatar.cs:169-181 | the `d` parameter is identicon, monsterid, mm, 404, retro or wavatar for the named policies; under GravatarLogo it is the URL-encoded custom image, and it is absent when the custom image is null or blank |
| GravatarProperties.ForceParamValue | Gravatar.cs:198-199 | `f=y` appears exactly when the default image is forced |
| GravatarProperties.ParamsOrdered | Gravatar.cs:191-199 | there are at most four parameters, each of the form key=value with key s, r, d or f, and the keys appear in that order with none repeated |
| GravatarProperties.NamedPolicyOverridesCustomImage | Gravatar.cs:171-179 | under any policy other than GravatarLogo, changing the custom image does not change the URL |
| GravatarProperties.DigestShape | Gravatar.cs:142-155 | a 16-byte MD5 hash gives a 32-character digest of lower-case hexadecimal digits, from which the hash reads back |
| GravatarProperties.NoQuestionMarkInHead | Gravatar.cs:91-95 | nothing before the query (scheme, path, digest, ".jpg") contains "?" |
| GravatarProperties.SchemePrefix | Gravatar.cs:91-92 | the URL starts with "https://" exactly when https is on, and with "http://" otherwise |
| GravatarProperties.DigestPosition | Gravatar.cs:92 | "gravatar.com/avatar/" follows the scheme, and the digest of the email follows it |
| GravatarProperties.FileTypeAfterDigest | Gravatar.cs:94-97 | ".jpg" immediately follows the digest exactly when the file type is appended |
| GravatarProperties.QuestionMarkIffParams | Gravatar.cs:197-204 | the URL contains "?" exactly when at least one parameter applies |
| GravatarProperties.QueryAfterFirstQuestionMark | Gravatar.cs:97 | the text after the URL's first "?" is the parameters joined by "&" |
| GravatarProperties.ParamsFreeOfSeparator | Gravatar.cs:191-199 | no parameter is empty or contains "&", provided the encoded custom image contains none |
| GravatarProperties.QueryRoundTrip | Gravatar.cs:204-213 | the query splits at "&" back into exactly the parameters, in order, and has no leading or trailing "&", provided the encoded custom image contains no "&" |
| GravatarProperties.SecureSizedRatedIdenticon | Gravatar.cs:87-101 | https, size 100, rating G and identicon render "https://gravatar.com/avatar/" + digest + "?s=100&r=g&d=identicon" |
| GravatarProperties.PlainNoOptions | Gravatar.cs:87-101 | a fresh http generator renders "http://gravatar.com/avatar/" + digest with no query at all |
| GravatarProperties.AllOptions | Gravatar.cs:87-101 | with every option set and a named policy, the URL ends in ".jpg?s=100&r=g&d=identicon&f=y", whatever the custom image |
| GravatarProperties.ChainExample | Gravatar.cs:103-140 | along a fluent chain, a size rejected after an accepted one leaves the accepted size in the URL, the last write to a field wins, a named policy hides the custom image, and setting a flag twice keeps it set |

## Left out

- MD5 `ComputeHash`, `Encoding.UTF8.GetBytes` and `HttpUtility.UrlEncode` are foreign library calls. They are fields of the `Platform` parameter and are not modelled.
- `Formatting.ParseHex` reads any pair that is not two digits as 0. It exists only to show that `HexOf` loses nothing, and is applied only to `HexOf`'s output.
- `GravatarExtension` (Gravatar.cs:217-268) is ASP.NET MVC plumbing. It reads `IsSecureConnection` from the request and forwards to the constructor, so it is not part of this model.
- Exception objects and their message texts are not modelled. Only the exception kind and its parameter name are kept.
- The 32-bit width of the C# `int` size needs no modelling. Every size that reaches the URL has passed the 0..512 check.
- `char.IsWhiteSpace` is written out as a fixed table of code points. It is not derived from the Unicode character database.
- The enums are closed datatypes, so a C# enum value outside the declared members is not modelled. Such a value takes the `default:` branches: `(DefaultGravatar)9` behaves like GravatarLogo (Gravatar.cs:179), and `(GravatarRating)9` adds no `r=` (Gravatar.cs:165).
- The join loop of `BuildUrlParams` is a separate static method, `JoinParams`. The split keeps each proof small, and it adds no observable step.
