/** Model of src/endpoint/glossary/languages.rs: the 33 languages a glossary
    may use. The macro there expands one table of lower-case codes into the
    enum (each variant is the camel-cased code), `FromStr`, `AsRef` and
    `Display`; the enum also derives serde with `rename_all = "lowercase"`. */
module GlossaryLanguages {
  import opened Wrappers
  import opened Text
  import Language

  /** Glossary languages, one variant per code of the table. */
  datatype GlossaryLanguage =
    Ar | Bg | Cs | Da | De | El | En | Es | Et | Fi | Fr | He | Hu | Id | It | Ja | Ko
    | Lt | Lv | Nb | Nl | Pl | Pt | Ro | Ru | Sk | Sl | Sv | Th | Tr | Uk | Vi | Zh

  /** `as_ref`: the variant's code literal. */
  function AsRef(g: GlossaryLanguage): string
  {
    match g
    case Ar => "ar"
    case Bg => "bg"
    case Cs => "cs"
    case Da => "da"
    case De => "de"
    case El => "el"
    case En => "en"
    case Es => "es"
    case Et => "et"
    case Fi => "fi"
    case Fr => "fr"
    case He => "he"
    case Hu => "hu"
    case Id => "id"
    case It => "it"
    case Ja => "ja"
    case Ko => "ko"
    case Lt => "lt"
    case Lv => "lv"
    case Nb => "nb"
    case Nl => "nl"
    case Pl => "pl"
    case Pt => "pt"
    case Ro => "ro"
    case Ru => "ru"
    case Sk => "sk"
    case Sl => "sl"
    case Sv => "sv"
    case Th => "th"
    case Tr => "tr"
    case Uk => "uk"
    case Vi => "vi"
    case Zh => "zh"
  }

  /** `FromStr::from_str`: the exact code literal decodes to its variant. */
  function FromStr(s: string): Result<GlossaryLanguage, Language.LangConvertError>
  {
    match s
    case "ar" => Ok(Ar)
    case "bg" => Ok(Bg)
    case "cs" => Ok(Cs)
    case "da" => Ok(Da)
    case "de" => Ok(De)
    case "el" => Ok(El)
    case "en" => Ok(En)
    case "es" => Ok(Es)
    case "et" => Ok(Et)
    case "fi" => Ok(Fi)
    case "fr" => Ok(Fr)
    case "he" => Ok(He)
    case "hu" => Ok(Hu)
    case "id" => Ok(Id)
    case "it" => Ok(It)
    case "ja" => Ok(Ja)
    case "ko" => Ok(Ko)
    case "lt" => Ok(Lt)
    case "lv" => Ok(Lv)
    case "nb" => Ok(Nb)
    case "nl" => Ok(Nl)
    case "pl" => Ok(Pl)
    case "pt" => Ok(Pt)
    case "ro" => Ok(Ro)
    case "ru" => Ok(Ru)
    case "sk" => Ok(Sk)
    case "sl" => Ok(Sl)
    case "sv" => Ok(Sv)
    case "th" => Ok(Th)
    case "tr" => Ok(Tr)
    case "uk" => Ok(Uk)
    case "vi" => Ok(Vi)
    case "zh" => Ok(Zh)
    case _ => Err(Language.InvalidLang(s))
  }

  /** `Display` writes the code, so its text decodes back to the variant. */
  function Display(g: GlossaryLanguage): (text: string)
    ensures FromStr(text) == Ok(g)
  {
    RoundTrip(g);
    AsRef(g)
  }

  /** Whatever `from_str` accepts encodes back to the input; anything else
      is reported as an `InvalidLang` carrying the input. */
  lemma FromStrInverse(s: string)
    ensures FromStr(s).Ok? ==> AsRef(FromStr(s).value) == s
    ensures FromStr(s).Err? ==> FromStr(s) == Err(Language.InvalidLang(s))
  {
  }

  /** Round trip: decoding the code of a variant gives the variant. */
  lemma RoundTrip(g: GlossaryLanguage)
    ensures FromStr(AsRef(g)) == Ok(g)
  {
  }

  /** Distinct variants have distinct codes. */
  lemma AsRefInjective(a: GlossaryLanguage, b: GlossaryLanguage)
    ensures AsRef(a) == AsRef(b) ==> a == b
  {
    RoundTrip(a);
    RoundTrip(b);
  }

  /** `from_str` accepts exactly the codes of the table. */
  lemma FromStrAcceptsExactlyTheCodes(s: string)
    ensures FromStr(s).Ok? <==> exists g :: AsRef(g) == s
  {
    FromStrInverse(s);
    if exists g :: AsRef(g) == s {
      var g :| AsRef(g) == s;
      RoundTrip(g);
    }
  }

  /** Every code is two lower-case ASCII letters. */
  lemma AsRefIsLowerCase(g: GlossaryLanguage)
    ensures |AsRef(g)| == 2
    ensures forall i :: 0 <= i < 2 ==> IsAsciiLower(AsRef(g)[i])
  {
  }

  /** The codes are already lower-case, so `to_lowercase` leaves them as they are. */
  lemma LowercaseKeepsCode(g: GlossaryLanguage)
    ensures ToLowercase(Display(g)) == AsRef(g)
  {
    AsRefIsLowerCase(g);
    LowercaseIsIdentity(AsRef(g));
  }

  /** Decoding is case-sensitive: a string with an upper-case ASCII letter,
      such as "EN", is rejected. */
  lemma FromStrRejectsUpperCase(s: string, i: nat)
    requires i < |s| && IsAsciiUpper(s[i])
    ensures FromStr(s) == Err(Language.InvalidLang(s))
  {
    FromStrInverse(s);
    if FromStr(s).Ok? {
      AsRefIsLowerCase(FromStr(s).value);
    }
  }

  /** The variant identifiers produced by the macro (`[<$lang:camel>]`). */
  function VariantName(g: GlossaryLanguage): string
  {
    match g
    case Ar => "Ar"
    case Bg => "Bg"
    case Cs => "Cs"
    case Da => "Da"
    case De => "De"
    case El => "El"
    case En => "En"
    case Es => "Es"
    case Et => "Et"
    case Fi => "Fi"
    case Fr => "Fr"
    case He => "He"
    case Hu => "Hu"
    case Id => "Id"
    case It => "It"
    case Ja => "Ja"
    case Ko => "Ko"
    case Lt => "Lt"
    case Lv => "Lv"
    case Nb => "Nb"
    case Nl => "Nl"
    case Pl => "Pl"
    case Pt => "Pt"
    case Ro => "Ro"
    case Ru => "Ru"
    case Sk => "Sk"
    case Sl => "Sl"
    case Sv => "Sv"
    case Th => "Th"
    case Tr => "Tr"
    case Uk => "Uk"
    case Vi => "Vi"
    case Zh => "Zh"
  }

  /** serde's `rename_all = "lowercase"` name of each variant is its code, so
      the JSON form and the `as_ref` form of a glossary language agree. */
  lemma SerdeNameIsCode(g: GlossaryLanguage)
    ensures ToLowercase(VariantName(g)) == AsRef(g)
  {
    var name := VariantName(g);
    assert ToLowercase(name) == [LowerChar(name[0]), LowerChar(name[1])] by {
      assert ToLowercase(name[1..]) == [LowerChar(name[1])] + ToLowercase(name[2..]);
    }
  }
}
