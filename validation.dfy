/** `assertValidLink`: the check `createLink` runs on its `url` argument before any write. */
module Validation {
  import opened Wrappers
  import opened JsValues

  /** The errors a resolver can surface to its caller. */
  datatype Error =
    | ValidationError(message: string, field: string)  // the source's own error class, scoped to one argument
    | TypeError                                        // a JavaScript runtime TypeError (its wording is the engine's)
    | WriteError                                       // the store rejected the insert

  /** URLs must be strictly shorter than this many UTF-16 code units. */
  const MaxUrlLength: nat := 2083

  const InvalidUrl: Error := ValidationError("Link validation error: invalid url.", "url")

  /**
   * JavaScript's `String.prototype.length`: the number of UTF-16 code
   * units, so a character outside the Basic Multilingual Plane counts twice.
   */
  function Utf16Length(s: string): (n: nat)
    ensures |s| <= n <= 2 * |s|
    ensures (forall i :: 0 <= i < |s| ==> s[i] as int <= 0xFFFF) ==> n == |s|
  {
    if s == [] then 0
    else (if s[0] as int > 0xFFFF then 2 else 1) + Utf16Length(s[1..])
  }

  /**
   * `assertValidLink({url})` with the URL regular expression `urlTest`:
   * it passes only on a string shorter than 2083 code units that the
   * expression accepts.  A non-string `url` has no `length`, so the
   * comparison `undefined < 2083` is false and the same ValidationError
   * is raised; reading `length` of `undefined` or `null` is a TypeError.
   */
  function AssertValidLink(data: Record, urlTest: string -> bool): (r: Outcome<Error>)
    ensures r.Pass? <==>
      Get(data, "url").Str? && Utf16Length(Get(data, "url").s) < MaxUrlLength && urlTest(Get(data, "url").s)
    ensures r.Fail? && (Get(data, "url") == Undefined || Get(data, "url") == Null) ==> r.error == TypeError
    ensures r.Fail? && Get(data, "url") != Undefined && Get(data, "url") != Null ==>
      r.error == ValidationError("Link validation error: invalid url.", "url")
    ensures Get(data, "url").Str? && |Get(data, "url").s| >= MaxUrlLength ==> r.Fail?
  {
    match Get(data, "url")
    case Undefined => Fail(TypeError)
    case Null => Fail(TypeError)
    case Str(url) =>
      if Utf16Length(url) < MaxUrlLength && urlTest(url) then Pass else Fail(InvalidUrl)
    case _ => Fail(InvalidUrl)
  }

  /** Whatever the regular expression says, a URL of 2083 or more characters is refused with field `url`. */
  lemma LongUrlRefused(data: Record, urlTest: string -> bool)
    requires Get(data, "url").Str? && |Get(data, "url").s| >= MaxUrlLength
    ensures AssertValidLink(data, urlTest) == Fail(ValidationError("Link validation error: invalid url.", "url"))
  {
  }

  /** The length bound is in code units: 1042 astral characters are already too long. */
  lemma AstralCharactersCountTwice(s: string)
    requires |s| == 1042 && forall i :: 0 <= i < |s| ==> s[i] as int > 0xFFFF
    ensures Utf16Length(s) == 2084
  {
    AstralLength(s);
  }

  lemma {:induction false} AstralLength(s: string)
    requires forall i :: 0 <= i < |s| ==> s[i] as int > 0xFFFF
    ensures Utf16Length(s) == 2 * |s|
  {
    if s != [] {
      AstralLength(s[1..]);
    }
  }
}
