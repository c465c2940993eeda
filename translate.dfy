/** Model of src/endpoint/translate.rs: the `TranslateRequester` produced by
    that file's `impl_requester!` expansion. It holds the two required fields
    of a text translation, the text and the target language, and seven
    optional ones; `new` leaves every optional field unset and each setter
    sets its own field and returns the same requester, so calls chain. */
module Translate {
  import opened Wrappers
  import opened Language
  import opened DeepL

  /** The parameter types below are imported from the crate root by the
      source but not defined in the modelled files; only their identity
      matters to the requester. */
  datatype SplitSentences = NoSplitting | PunctuationAndNewlines | PunctuationOnly
  datatype PreserveFormatting = Preserve | DoNotPreserve
  datatype TagHandling = Xml | Html

  /** The seven optional fields, read together. */
  datatype TranslateOptions = TranslateOptions(
    sourceLang: Option<Lang>,
    splitSentences: Option<SplitSentences>,
    preserveFormatting: Option<PreserveFormatting>,
    glossaryId: Option<string>,
    tagHandling: Option<TagHandling>,
    nonSplittingTags: Option<seq<string>>,
    ignoreTags: Option<seq<string>>)

  const NoOptions: TranslateOptions := TranslateOptions(None, None, None, None, None, None, None)

  class TranslateRequester {
    var client: DeepLApi
    var text: string
    var targetLang: Lang
    var sourceLang: Option<Lang>
    var splitSentences: Option<SplitSentences>
    var preserveFormatting: Option<PreserveFormatting>
    var glossaryId: Option<string>
    var tagHandling: Option<TagHandling>
    var nonSplittingTags: Option<seq<string>>
    var ignoreTags: Option<seq<string>>

    function Options(): TranslateOptions
      reads this
    {
      TranslateOptions(sourceLang, splitSentences, preserveFormatting, glossaryId,
                       tagHandling, nonSplittingTags, ignoreTags)
    }

    /** `new(client, text, target_lang)`: the required fields as given, every
        optional field unset. */
    constructor New(client: DeepLApi, text: string, targetLang: Lang)
      ensures this.client == client && this.text == text && this.targetLang == targetLang
      ensures Options() == NoOptions
    {
      this.client := client;
      this.text := text;
      this.targetLang := targetLang;
      sourceLang, splitSentences, preserveFormatting, glossaryId := None, None, None, None;
      tagHandling, nonSplittingTags, ignoreTags := None, None, None;
    }

    method SetSourceLang(v: Lang) returns (self: TranslateRequester)
      modifies this
      ensures self == this
      ensures Options() == old(Options()).(sourceLang := Some(v))
      ensures client == old(client) && text == old(text) && targetLang == old(targetLang)
    {
      sourceLang := Some(v);
      self := this;
    }

    method SetSplitSentences(v: SplitSentences) returns (self: TranslateRequester)
      modifies this
      ensures self == this
      ensures Options() == old(Options()).(splitSentences := Some(v))
      ensures client == old(client) && text == old(text) && targetLang == old(targetLang)
    {
      splitSentences := Some(v);
      self := this;
    }

    method SetPreserveFormatting(v: PreserveFormatting) returns (self: TranslateRequester)
      modifies this
      ensures self == this
      ensures Options() == old(Options()).(preserveFormatting := Some(v))
      ensures client == old(client) && text == old(text) && targetLang == old(targetLang)
    {
      preserveFormatting := Some(v);
      self := this;
    }

    method SetGlossaryId(v: string) returns (self: TranslateRequester)
      modifies this
      ensures self == this
      ensures Options() == old(Options()).(glossaryId := Some(v))
      ensures client == old(client) && text == old(text) && targetLang == old(targetLang)
    {
      glossaryId := Some(v);
      self := this;
    }

    method SetTagHandling(v: TagHandling) returns (self: TranslateRequester)
      modifies this
      ensures self == this
      ensures Options() == old(Options()).(tagHandling := Some(v))
      ensures client == old(client) && text == old(text) && targetLang == old(targetLang)
    {
      tagHandling := Some(v);
      self := this;
    }

    method SetNonSplittingTags(v: seq<string>) returns (self: TranslateRequester)
      modifies this
      ensures self == this
      ensures Options() == old(Options()).(nonSplittingTags := Some(v))
      ensures client == old(client) && text == old(text) && targetLang == old(targetLang)
    {
      nonSplittingTags := Some(v);
      self := this;
    }

    method SetIgnoreTags(v: seq<string>) returns (self: TranslateRequester)
      modifies this
      ensures self == this
      ensures Options() == old(Options()).(ignoreTags := Some(v))
      ensures client == old(client) && text == old(text) && targetLang == old(targetLang)
    {
      ignoreTags := Some(v);
      self := this;
    }
  }

  /** The chained request of the crate's advanced translation test (German
      target, English source, `keep` tags ignored, XML tag handling), with an
      earlier source language that the later call overrides: setters applied
      through the returned requester accumulate, a repeated setter keeps its
      last value, and the required fields are never touched. */
  method AdvancedRequest(api: DeepLApi, text: string) returns (r: TranslateRequester)
    ensures fresh(r)
    ensures r.client == api && r.text == text && r.targetLang == DE
    ensures r.Options() == NoOptions.(sourceLang := Some(EN), ignoreTags := Some(["keep"]),
                                      tagHandling := Some(Xml))
  {
    r := new TranslateRequester.New(api, text, DE);
    var same := r.SetSourceLang(FR);
    same := same.SetSourceLang(EN);
    same := same.SetIgnoreTags(["keep"]);
    same := same.SetTagHandling(Xml);
  }
}
