/** Model of src/endpoint/mod.rs: the crate's error type, the `Formality`
    preference with its wire tokens, and the message built by
    `extract_deepl_error` from a failed response. The `impl_requester!`
    builder macro defined there is modelled where it is used, by
    `Document.UploadDocumentRequester`. */
module Endpoint {
  import opened Wrappers
  import opened Text

  /** The operating-system error carried by `ReadFileError`, by its message. */
  datatype IoError = IoError(message: string)

  /** `endpoint::Error`: what can go wrong while talking to the service. */
  datatype Error =
    | InvalidResponse(message: string)
    | RequestFail(message: string)
    | ReadFileError(path: string, cause: IoError)
    | NonExistDocument
    | TranslationNotDone
    | WriteFileError(message: string)

  /** Formality preference for translation. */
  datatype Formality = Default | More | Less | PreferMore | PreferLess

  /** `Formality::as_ref`: the token the service expects. */
  function FormalityToken(f: Formality): string
  {
    match f
    case Default => "default"
    case More => "more"
    case Less => "less"
    case PreferMore => "prefer_more"
    case PreferLess => "prefer_less"
  }

  /** The five tokens are pairwise distinct, so a token names one preference. */
  lemma FormalityTokenInjective(a: Formality, b: Formality)
    ensures FormalityToken(a) == FormalityToken(b) ==> a == b
  {
  }

  /** The identifiers of the variants, as declared. */
  function FormalityVariantName(f: Formality): string
  {
    match f
    case Default => "Default"
    case More => "More"
    case Less => "Less"
    case PreferMore => "PreferMore"
    case PreferLess => "PreferLess"
  }

  /** serde's `rename_all = "snake_case"` rule: an underscore before every
      upper-case letter but the first, and every letter lower-cased. */
  function SnakeCase(name: string): string
  {
    if |name| == 0 then "" else [LowerChar(name[0])] + SnakeTail(name[1..])
  }

  function SnakeTail(s: string): string
  {
    if |s| == 0 then ""
    else (if IsAsciiUpper(s[0]) then ['_', LowerChar(s[0])] else [s[0]]) + SnakeTail(s[1..])
  }

  /** `Display` writes the `as_ref` token, and that token is also the name
      the derived `Serialize` would give the variant. */
  function FormalityDisplay(f: Formality): (text: string)
    ensures text == FormalityToken(f)
    ensures text == SnakeCase(FormalityVariantName(f))
  {
    SerdeNameIsToken(f);
    FormalityToken(f)
  }

  lemma SerdeNameIsToken(f: Formality)
    ensures SnakeCase(FormalityVariantName(f)) == FormalityToken(f)
  {
    match f {
      case Default => SnakeCaseOneWord('D', "efault");
      case More => SnakeCaseOneWord('M', "ore");
      case Less => SnakeCaseOneWord('L', "ess");
      case PreferMore => SerdeNameOfPreference(f);
      case PreferLess => SerdeNameOfPreference(f);
    }
  }

  lemma SerdeNameOfPreference(f: Formality)
    requires f.PreferMore? || f.PreferLess?
    ensures SnakeCase(FormalityVariantName(f)) == FormalityToken(f)
  {
    if f.PreferMore? {
      SnakeCaseTwoWords('P', "refer", 'M', "ore");
      assert "PreferMore" == ['P'] + "refer" + ['M'] + "ore";
      assert "prefer_more" == ['p'] + "refer" + ['_', 'm'] + "ore";
    } else {
      SnakeCaseTwoWords('P', "refer", 'L', "ess");
      assert "PreferLess" == ['P'] + "refer" + ['L'] + "ess";
      assert "prefer_less" == ['p'] + "refer" + ['_', 'l'] + "ess";
    }
  }

  /** A capitalised word becomes the word in lower case. */
  lemma SnakeCaseOneWord(first: char, rest: string)
    requires IsAsciiUpper(first)
    requires forall i :: 0 <= i < |rest| ==> !IsAsciiUpper(rest[i])
    ensures SnakeCase([first] + rest) == [LowerChar(first)] + rest
  {
    assert ([first] + rest)[1..] == rest;
    SnakeTailOfLowerCase(rest);
  }

  /** Two capitalised words become the lower-case words joined by `_`. */
  lemma SnakeCaseTwoWords(first: char, rest: string, second: char, rest2: string)
    requires IsAsciiUpper(first) && IsAsciiUpper(second)
    requires forall i :: 0 <= i < |rest| ==> !IsAsciiUpper(rest[i])
    requires forall i :: 0 <= i < |rest2| ==> !IsAsciiUpper(rest2[i])
    ensures SnakeCase([first] + rest + [second] + rest2)
         == [LowerChar(first)] + rest + ['_', LowerChar(second)] + rest2
  {
    var name := [first] + rest + [second] + rest2;
    assert name[1..] == rest + ([second] + rest2);
    SnakeTailAppend(rest, [second] + rest2);
    SnakeTailOfLowerCase(rest);
    assert ([second] + rest2)[1..] == rest2;
    SnakeTailOfLowerCase(rest2);
  }

  lemma {:induction false} SnakeTailOfLowerCase(s: string)
    requires forall i :: 0 <= i < |s| ==> !IsAsciiUpper(s[i])
    ensures SnakeTail(s) == s
  {
    if |s| > 0 {
      SnakeTailOfLowerCase(s[1..]);
    }
  }

  lemma {:induction false} SnakeTailAppend(a: string, b: string)
    ensures SnakeTail(a + b) == SnakeTail(a) + SnakeTail(b)
  {
    if |a| == 0 {
      assert a + b == b;
    } else {
      assert (a + b)[1..] == a[1..] + b;
      SnakeTailAppend(a[1..], b);
    }
  }

  /** `extract_deepl_error`: always a `RequestFail`; its message is the
      status followed by a space and the body when the body could be read,
      and the status alone otherwise. `status` is the status line's display
      text, `body` the response text if it was readable. */
  function ExtractDeeplError<T>(status: string, body: Option<string>): (r: Result<T, Error>)
    ensures r.Err? && r.error.RequestFail?
    ensures |r.error.message| >= |status| && r.error.message[..|status|] == status
    ensures body.None? ==> r.error.message == status
    ensures body.Some? ==> |r.error.message| > |status| && r.error.message[|status|] == ' '
                           && r.error.message[|status| + 1..] == body.value
  {
    match body
    case Some(message) => Err(RequestFail(status + " " + message))
    case None => Err(RequestFail(status))
  }
}
