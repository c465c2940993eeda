/** Model of src/lang.rs: the 31 language codes accepted for source and
    target text, their decoder `Lang::from`, encoder `as_ref` / `to_string`,
    full names, and the custom deserialiser that delegates to `from`. */
module Language {
  import opened Wrappers
  import opened Text

  /** The supported languages; variant `EN_GB` has the code "EN-GB". */
  datatype Lang =
    BG | CS | DA | DE | EL | EN | EN_GB | EN_US | ES | ET | FI | FR | HU | ID | IT | JA | LT | LV | NL | PL | PT | PT_BR | PT_PT | RO | RU | SK | SL | SV | TR | UK | ZH

  /** Error raised when a code is not in the list. */
  datatype LangConvertError = InvalidLang(code: string)

  /** `Lang::as_ref`: the upper-case code of a language. */
  function AsRef(l: Lang): string
  {
    match l
    case BG => "BG"
    case CS => "CS"
    case DA => "DA"
    case DE => "DE"
    case EL => "EL"
    case EN => "EN"
    case EN_US => "EN-US"
    case EN_GB => "EN-GB"
    case ES => "ES"
    case ET => "ET"
    case FI => "FI"
    case FR => "FR"
    case HU => "HU"
    case ID => "ID"
    case IT => "IT"
    case JA => "JA"
    case LT => "LT"
    case LV => "LV"
    case NL => "NL"
    case PL => "PL"
    case PT => "PT"
    case PT_BR => "PT-BR"
    case PT_PT => "PT-PT"
    case RO => "RO"
    case RU => "RU"
    case SK => "SK"
    case SL => "SL"
    case SV => "SV"
    case TR => "TR"
    case UK => "UK"
    case ZH => "ZH"
  }

  /** `Lang::from`: decodes an exact, case-sensitive code. */
  function From(s: string): Result<Lang, LangConvertError>
  {
    match s
    case "BG" => Ok(BG)
    case "CS" => Ok(CS)
    case "DA" => Ok(DA)
    case "DE" => Ok(DE)
    case "EL" => Ok(EL)
    case "EN" => Ok(EN)
    case "EN-GB" => Ok(EN_GB)
    case "EN-US" => Ok(EN_US)
    case "ES" => Ok(ES)
    case "ET" => Ok(ET)
    case "FI" => Ok(FI)
    case "FR" => Ok(FR)
    case "HU" => Ok(HU)
    case "ID" => Ok(ID)
    case "IT" => Ok(IT)
    case "JA" => Ok(JA)
    case "LT" => Ok(LT)
    case "LV" => Ok(LV)
    case "NL" => Ok(NL)
    case "PL" => Ok(PL)
    case "PT" => Ok(PT)
    case "PT-BR" => Ok(PT_BR)
    case "PT-PT" => Ok(PT_PT)
    case "RO" => Ok(RO)
    case "RU" => Ok(RU)
    case "SK" => Ok(SK)
    case "SL" => Ok(SL)
    case "SV" => Ok(SV)
    case "TR" => Ok(TR)
    case "UK" => Ok(UK)
    case "ZH" => Ok(ZH)
    case _ => Err(InvalidLang(s))
  }

  /** `to_string` goes through `as_ref`, so its text decodes back to the language. */
  function ToString(l: Lang): (code: string)
    ensures From(code) == Ok(l)
  {
    RoundTrip(l);
    AsRef(l)
  }

  /** Whatever `from` accepts encodes back to the input; anything else
      is reported as an `InvalidLang` carrying the input. */
  lemma FromInverse(s: string)
    ensures From(s).Ok? ==> AsRef(From(s).value) == s
    ensures From(s).Err? ==> From(s) == Err(InvalidLang(s))
  {
  }

  /** Round trip: decoding the code of a language gives the language. */
  lemma RoundTrip(l: Lang)
    ensures From(AsRef(l)) == Ok(l)
  {
  }

  /** Distinct languages have distinct codes. */
  lemma AsRefInjective(a: Lang, b: Lang)
    ensures AsRef(a) == AsRef(b) ==> a == b
  {
    RoundTrip(a);
    RoundTrip(b);
  }

  /** `from` accepts exactly the codes of the table and nothing else. */
  lemma FromAcceptsExactlyTheCodes(s: string)
    ensures From(s).Ok? <==> exists l :: AsRef(l) == s
  {
    FromInverse(s);
    if exists l :: AsRef(l) == s {
      var l :| AsRef(l) == s;
      RoundTrip(l);
    }
  }

  /** Every code is two upper-case letters, or two letters, a hyphen and two letters. */
  lemma AsRefShape(l: Lang)
    ensures var code := AsRef(l);
      && (|code| == 2 || |code| == 5)
      && forall i :: 0 <= i < |code| ==> IsAsciiUpper(code[i]) || code[i] == '-'
  {
  }

  /** Decoding is case-sensitive: a string with a lower-case ASCII letter,
      such as "en" or "en-gb", is rejected. */
  lemma FromRejectsLowerCase(s: string, i: nat)
    requires i < |s| && IsAsciiLower(s[i])
    ensures From(s) == Err(InvalidLang(s))
  {
    FromInverse(s);
    if From(s).Ok? {
      AsRefShape(From(s).value);
    }
  }

  /** `Lang::description`: the full English name of the language. */
  function Description(l: Lang): string
  {
    match l
    case BG => "Bulgarian"
    case CS => "Czech"
    case DA => "Danish"
    case DE => "German"
    case EL => "Greek"
    case EN => "English (Unspecified variant)"
    case EN_US => "English (American)"
    case EN_GB => "English (British)"
    case ES => "Spanish"
    case ET => "Estonian"
    case FI => "Finnish"
    case FR => "French"
    case HU => "Hungarian"
    case ID => "Indonesian"
    case IT => "Italian"
    case JA => "Japanese"
    case LT => "Lithuanian"
    case LV => "Latvian"
    case NL => "Dutch"
    case PL => "Polish"
    case PT => "Portuguese (all Portuguese varieties mixed)"
    case PT_BR => "Portuguese (Brazilian)"
    case PT_PT => "Portuguese (All Portuguese varieties excluding Brazilian)"
    case RO => "Romanian"
    case RU => "Russian"
    case SK => "Slovak"
    case SL => "Slovenian"
    case SV => "Swedish"
    case TR => "Turkish"
    case UK => "Ukrainian"
    case ZH => "Chinese"
  }

  /** A short fingerprint of a name: its length, and for names of ten
      characters or fewer also its first two letters. */
  function Fingerprint(name: string): (int, char, char)
  {
    if |name| < 2 || |name| > 10 then (|name|, ' ', ' ') else (|name|, name[0], name[1])
  }

  /** The name table read backwards through fingerprints; no two names share one. */
  ghost function LangWithFingerprint(fp: (int, char, char)): Option<Lang>
  {
    match fp
    case (9, 'B', 'u') => Some(BG)
    case (5, 'C', 'z') => Some(CS)
    case (6, 'D', 'a') => Some(DA)
    case (6, 'G', 'e') => Some(DE)
    case (5, 'G', 'r') => Some(EL)
    case (29, ' ', ' ') => Some(EN)
    case (18, ' ', ' ') => Some(EN_US)
    case (17, ' ', ' ') => Some(EN_GB)
    case (7, 'S', 'p') => Some(ES)
    case (8, 'E', 's') => Some(ET)
    case (7, 'F', 'i') => Some(FI)
    case (6, 'F', 'r') => Some(FR)
    case (9, 'H', 'u') => Some(HU)
    case (10, 'I', 'n') => Some(ID)
    case (7, 'I', 't') => Some(IT)
    case (8, 'J', 'a') => Some(JA)
    case (10, 'L', 'i') => Some(LT)
    case (7, 'L', 'a') => Some(LV)
    case (5, 'D', 'u') => Some(NL)
    case (6, 'P', 'o') => Some(PL)
    case (43, ' ', ' ') => Some(PT)
    case (22, ' ', ' ') => Some(PT_BR)
    case (57, ' ', ' ') => Some(PT_PT)
    case (8, 'R', 'o') => Some(RO)
    case (7, 'R', 'u') => Some(RU)
    case (6, 'S', 'l') => Some(SK)
    case (9, 'S', 'l') => Some(SL)
    case (7, 'S', 'w') => Some(SV)
    case (7, 'T', 'u') => Some(TR)
    case (9, 'U', 'k') => Some(UK)
    case (7, 'C', 'h') => Some(ZH)
    case _ => None
  }

  /** Every name leads back to its language. */
  lemma DescriptionIdentifiesLang(l: Lang)
    ensures LangWithFingerprint(Fingerprint(Description(l))) == Some(l)
  {
    match l {
      case BG =>
      case CS =>
      case DA =>
      case DE =>
      case EL =>
      case EN =>
      case EN_GB =>
      case EN_US =>
      case ES =>
      case ET =>
      case FI =>
      case FR =>
      case HU =>
      case ID =>
      case IT =>
      case JA =>
      case LT =>
      case LV =>
      case NL =>
      case PL =>
      case PT =>
      case PT_BR =>
      case PT_PT =>
      case RO =>
      case RU =>
      case SK =>
      case SL =>
      case SV =>
      case TR =>
      case UK =>
      case ZH =>
    }
  }

  /** Distinct languages have distinct names. */
  lemma DescriptionInjective(a: Lang, b: Lang)
    ensures Description(a) == Description(b) ==> a == b
  {
    DescriptionIdentifiesLang(a);
    DescriptionIdentifiesLang(b);
  }

  /** The custom `Deserialize` impl: the deserialised string must decode with
      `from`; otherwise a custom error names it. `input` is the result of
      deserialising a plain string, whose error is propagated unchanged. */
  function Deserialize(input: Result<string, string>): (r: Result<Lang, string>)
    ensures input.Err? ==> r == Err(input.error)
    ensures input.Ok? ==> (r.Ok? <==> From(input.value).Ok?)
    ensures input.Ok? && r.Ok? ==> AsRef(r.value) == input.value
    ensures input.Ok? && r.Err? ==> r.error == DeserializeMessage(input.value)
  {
    match input
    case Err(e) => Err(e)
    case Ok(s) =>
      FromInverse(s);
      match From(s)
      case Ok(l) => Ok(l)
      case Err(_) => Err(DeserializeMessage(s))
  }

  function DeserializeMessage(s: string): string
  {
    "invalid language code " + s + ". This is an internal issue with the lib, please open issue"
  }
}
