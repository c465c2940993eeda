/** Model of src/endpoint/document.rs: the `UploadDocumentRequester` that the
    `impl_requester!` macro of src/endpoint/mod.rs generates (two required
    fields, four optional ones), and `to_multipart_form`, which assembles
    the form a document is uploaded with. The file's contents are an input:
    either its bytes or the error reading it failed with. */
module Document {
  import opened Wrappers
  import opened Text
  import opened Endpoint
  import opened DeepL
  import Language

  // ---------------------------------------------------------------------
  // File names
  // ---------------------------------------------------------------------

  /** A `Normal` path component: a non-empty name that is neither `.` nor
      `..` and holds no `/`. */
  predicate NormalComponent(c: string)
  {
    c != "" && c != "." && c != ".." && '/' !in c
  }

  /** The last piece that is not empty and not `.`: the last component the
      path yields once repeated separators and `.` components are skipped. */
  function LastComponent(pieces: seq<string>): (r: Option<string>)
    ensures r.Some? ==> r.value in pieces && r.value != "" && r.value != "."
  {
    if |pieces| == 0 then None
    else
      var last := pieces[|pieces| - 1];
      if last == "" || last == "." then LastComponent(pieces[..|pieces| - 1]) else Some(last)
  }

  /** `Path::file_name` on a Unix path: the final component if it is a
      normal name; `None` when the path ends in `..` or has no component
      besides the root and `.`. */
  function FileName(path: string): (r: Option<string>)
    ensures r.Some? ==> NormalComponent(r.value)
  {
    match LastComponent(Split(path, '/'))
    case Some(c) => if c == ".." then None else Some(c)
    case None => None
  }

  /** A normal name is its own file name, also below any directory. */
  lemma FileNameOfChild(dir: string, name: string)
    requires NormalComponent(name)
    ensures FileName(name) == Some(name)
    ensures FileName(dir + "/" + name) == Some(name)
  {
    SplitWithoutSeparator(name, '/');
    SplitAround(dir, name, '/');
    var pieces := Split(dir, '/') + [name];
    assert pieces[|pieces| - 1] == name;
  }

  /** A trailing separator does not change the file name. */
  lemma FileNameIgnoresTrailingSlash(path: string)
    ensures FileName(path + "/") == FileName(path)
  {
    SplitAround(path, "", '/');
    assert path + "/" == path + ['/'] + "";
    var pieces := Split(path, '/') + [""];
    assert pieces[..|pieces| - 1] == Split(path, '/');
  }

  /** A path that ends in `..` has no file name. */
  lemma FileNameOfParent(dir: string)
    ensures FileName(dir + "/..") == None
  {
    SplitWithoutSeparator("..", '/');
    SplitAround(dir, "..", '/');
    assert dir + "/.." == dir + ['/'] + "..";
    var pieces := Split(dir, '/') + [".."];
    assert pieces[|pieces| - 1] == "..";
  }

  /** A path whose pieces between separators are all empty or `.` has no
      file name. */
  lemma FileNameWithoutComponent(path: string)
    requires forall i :: 0 <= i < |Split(path, '/')| ==> Split(path, '/')[i] in {"", "."}
    ensures FileName(path) == None
  {
  }

  /** The empty path, the root and `.`, with or without a trailing
      separator, have no file name. */
  lemma FileNameOfRootAndDot()
    ensures FileName("") == None && FileName("/") == None
    ensures FileName(".") == None && FileName("./") == None
  {
    FileNameWithoutComponent("");
    SplitWithoutSeparator(".", '/');
    FileNameWithoutComponent(".");
    FileNameIgnoresTrailingSlash("");
    FileNameIgnoresTrailingSlash(".");
  }

  // ---------------------------------------------------------------------
  // The multipart form
  // ---------------------------------------------------------------------

  /** What a form field carries: text, or a file part with its file name. */
  datatype FormValue = Text(text: string) | FilePart(fileName: string, bytes: seq<bv8>)

  datatype FormField = FormField(name: string, value: FormValue)

  /** A multipart form: its fields in the order they were added. */
  type Form = seq<FormField>

  /** The settings of an upload request, read together. */
  datatype UploadSettings = UploadSettings(
    filePath: string,
    targetLang: Language.Lang,
    sourceLang: Option<Language.Lang>,
    filename: Option<string>,
    formality: Option<Formality>,
    glossaryId: Option<string>)

  /** The `expect` message when neither a filename nor a file name exists. */
  const NoFileNameMessage: string :=
    "No extension found for this file, and no filename given, cannot make request"

  /** A text field when the value is present, nothing otherwise. */
  function OptionalText(name: string, value: Option<string>): Form
  {
    if value.Some? then [FormField(name, Text(value.value))] else []
  }

  function LangCode(l: Option<Language.Lang>): Option<string>
  {
    if l.Some? then Some(Language.ToString(l.value)) else None
  }

  function FormalityText(f: Option<Formality>): Option<string>
  {
    if f.Some? then Some(FormalityDisplay(f.value)) else None
  }

  /** The name given to the file part: the filename if one is set, else the
      file name of the path. */
  function PartName(s: UploadSettings): Option<string>
  {
    if s.filename.Some? then s.filename else FileName(s.filePath)
  }

  /** What `to_multipart_form` produces from the settings and the outcome of
      reading the file. */
  function MultipartForm(s: UploadSettings, fileRead: Result<seq<bv8>, IoError>): Outcome<Result<Form, Error>>
  {
    match fileRead
    case Err(e) => Returns(Err(ReadFileError(s.filePath, e)))
    case Ok(bytes) =>
      if PartName(s).None? then Panics(NoFileNameMessage)
      else Returns(Ok(
        OptionalText("source_lang", LangCode(s.sourceLang))
        + [FormField("target_lang", Text(Language.ToString(s.targetLang)))]
        + OptionalText("filename", s.filename)
        + [FormField("file", FilePart(PartName(s).value, bytes))]
        + OptionalText("formality", FormalityText(s.formality))
        + OptionalText("glossary_id", s.glossaryId)))
  }

  /** The value of the first field with the given name. */
  function Lookup(form: Form, name: string): Option<FormValue>
  {
    if |form| == 0 then None
    else if form[0].name == name then Some(form[0].value)
    else Lookup(form[1..], name)
  }

  lemma {:induction false} LookupAppend(a: Form, b: Form, name: string)
    ensures Lookup(a + b, name) == if Lookup(a, name).Some? then Lookup(a, name) else Lookup(b, name)
  {
    if |a| > 0 {
      assert (a + b)[1..] == a[1..] + b;
      LookupAppend(a[1..], b, name);
    } else {
      assert a + b == b;
    }
  }

  /** A failed read is reported as a `ReadFileError` carrying the path and
      the cause; no form is produced and nothing panics. */
  lemma ReadFailureIsReported(s: UploadSettings, e: IoError)
    ensures MultipartForm(s, Err(e)) == Returns(Err(ReadFileError(s.filePath, e)))
  {
  }

  /** The call panics exactly when the file was read, no filename is set and
      the path has no file name. */
  lemma PanicsWithoutAnyName(s: UploadSettings, fileRead: Result<seq<bv8>, IoError>)
    ensures MultipartForm(s, fileRead).Panics? <==> fileRead.Ok? && s.filename.None? && FileName(s.filePath).None?
    ensures MultipartForm(s, fileRead).Panics? ==> MultipartForm(s, fileRead).message == NoFileNameMessage
  {
  }

  /** The rank of each field name in the fixed order fields are added in. */
  function Rank(name: string): nat
  {
    match name
    case "source_lang" => 0
    case "target_lang" => 1
    case "filename" => 2
    case "file" => 3
    case "formality" => 4
    case "glossary_id" => 5
    case _ => 6
  }

  /** Field names strictly follow the fixed order (so none is repeated). */
  predicate Ordered(form: Form)
  {
    forall i, j :: 0 <= i < j < |form| ==> Rank(form[i].name) < Rank(form[j].name)
  }

  /** Every field ranks at most `k`. */
  predicate RanksAtMost(form: Form, k: nat)
  {
    forall i :: 0 <= i < |form| ==> Rank(form[i].name) <= k
  }

  lemma OrderedAppend(a: Form, b: Form, k: nat)
    requires Ordered(a) && RanksAtMost(a, k)
    requires |b| <= 1 && (|b| == 1 ==> Rank(b[0].name) == k + 1)
    ensures Ordered(a + b) && RanksAtMost(a + b, k + 1)
  {
  }

  /** The form holds the fields in the order `source_lang`, `target_lang`,
      `filename`, `file`, `formality`, `glossary_id`, each at most once. */
  lemma FieldsInFixedOrder(s: UploadSettings, bytes: seq<bv8>)
    requires MultipartForm(s, Ok(bytes)).Returns?
    ensures Ordered(MultipartForm(s, Ok(bytes)).value.value)
  {
    var p0 := OptionalText("source_lang", LangCode(s.sourceLang));
    var p1 := [FormField("target_lang", Text(Language.ToString(s.targetLang)))];
    var p2 := OptionalText("filename", s.filename);
    var p3 := [FormField("file", FilePart(PartName(s).value, bytes))];
    var p4 := OptionalText("formality", FormalityText(s.formality));
    var p5 := OptionalText("glossary_id", s.glossaryId);
    assert Ordered(p0) && RanksAtMost(p0, 0);
    OrderedAppend(p0, p1, 0);
    OrderedAppend(p0 + p1, p2, 1);
    OrderedAppend(p0 + p1 + p2, p3, 2);
    OrderedAppend(p0 + p1 + p2 + p3, p4, 3);
    OrderedAppend(p0 + p1 + p2 + p3 + p4, p5, 4);
  }

  lemma LookupOptionalText(name: string, value: Option<string>, key: string)
    ensures Lookup(OptionalText(name, value), key) ==
      if name == key && value.Some? then Some(Text(value.value)) else None
  {
  }

  /** A lookup in the assembled form goes to the first piece holding the name. */
  lemma LookupInForm(p0: Form, p1: Form, p2: Form, p3: Form, p4: Form, p5: Form, key: string)
    ensures Lookup(p0 + p1 + p2 + p3 + p4 + p5, key) ==
      if Lookup(p0, key).Some? then Lookup(p0, key)
      else if Lookup(p1, key).Some? then Lookup(p1, key)
      else if Lookup(p2, key).Some? then Lookup(p2, key)
      else if Lookup(p3, key).Some? then Lookup(p3, key)
      else if Lookup(p4, key).Some? then Lookup(p4, key)
      else Lookup(p5, key)
  {
    LookupAppend(p0 + p1 + p2 + p3 + p4, p5, key);
    LookupAppend(p0 + p1 + p2 + p3, p4, key);
    LookupAppend(p0 + p1 + p2, p3, key);
    LookupAppend(p0 + p1, p2, key);
    LookupAppend(p0, p1, key);
  }

  /** The assembled form, piece by piece, when the file was read and a part
      name exists. */
  lemma FormPieces(s: UploadSettings, bytes: seq<bv8>, key: string)
    requires PartName(s).Some?
    ensures Lookup(MultipartForm(s, Ok(bytes)).value.value, key) ==
      if key == "source_lang" && s.sourceLang.Some? then Some(Text(Language.ToString(s.sourceLang.value)))
      else if key == "target_lang" then Some(Text(Language.ToString(s.targetLang)))
      else if key == "filename" && s.filename.Some? then Some(Text(s.filename.value))
      else if key == "file" then Some(FilePart(PartName(s).value, bytes))
      else if key == "formality" && s.formality.Some? then Some(Text(FormalityDisplay(s.formality.value)))
      else if key == "glossary_id" && s.glossaryId.Some? then Some(Text(s.glossaryId.value))
      else None
  {
    var p0 := OptionalText("source_lang", LangCode(s.sourceLang));
    var p1 := [FormField("target_lang", Text(Language.ToString(s.targetLang)))];
    var p2 := OptionalText("filename", s.filename);
    var p3 := [FormField("file", FilePart(PartName(s).value, bytes))];
    var p4 := OptionalText("formality", FormalityText(s.formality));
    var p5 := OptionalText("glossary_id", s.glossaryId);
    LookupInForm(p0, p1, p2, p3, p4, p5, key);
    LookupOptionalText("source_lang", LangCode(s.sourceLang), key);
    LookupOptionalText("filename", s.filename, key);
    LookupOptionalText("formality", FormalityText(s.formality), key);
    LookupOptionalText("glossary_id", s.glossaryId, key);
  }

  /** The target language is always sent, the source language exactly when
      it is set, each as its language code. */
  lemma LanguageFields(s: UploadSettings, bytes: seq<bv8>)
    requires MultipartForm(s, Ok(bytes)).Returns?
    ensures Lookup(MultipartForm(s, Ok(bytes)).value.value, "target_lang")
         == Some(Text(Language.AsRef(s.targetLang)))
    ensures Lookup(MultipartForm(s, Ok(bytes)).value.value, "source_lang")
         == if s.sourceLang.Some? then Some(Text(Language.AsRef(s.sourceLang.value))) else None
  {
    FormPieces(s, bytes, "target_lang");
    FormPieces(s, bytes, "source_lang");
  }

  /** A set filename names the file part and is also sent as a `filename`
      field; without one the part takes the path's file name and no
      `filename` field is sent. */
  lemma FileFields(s: UploadSettings, bytes: seq<bv8>)
    requires MultipartForm(s, Ok(bytes)).Returns?
    ensures Lookup(MultipartForm(s, Ok(bytes)).value.value, "filename")
         == if s.filename.Some? then Some(Text(s.filename.value)) else None
    ensures Lookup(MultipartForm(s, Ok(bytes)).value.value, "file")
         == Some(FilePart(if s.filename.Some? then s.filename.value else FileName(s.filePath).value, bytes))
  {
    FormPieces(s, bytes, "filename");
    FormPieces(s, bytes, "file");
  }

  /** The formality (as its token) and the glossary id are sent exactly when
      they are set. */
  lemma OptionalFields(s: UploadSettings, bytes: seq<bv8>)
    requires MultipartForm(s, Ok(bytes)).Returns?
    ensures Lookup(MultipartForm(s, Ok(bytes)).value.value, "formality")
         == if s.formality.Some? then Some(Text(FormalityToken(s.formality.value))) else None
    ensures Lookup(MultipartForm(s, Ok(bytes)).value.value, "glossary_id")
         == if s.glossaryId.Some? then Some(Text(s.glossaryId.value)) else None
  {
    FormPieces(s, bytes, "formality");
    FormPieces(s, bytes, "glossary_id");
  }

  // ---------------------------------------------------------------------
  // The requester
  // ---------------------------------------------------------------------

  /** `UploadDocumentRequester`: the client, the required file path and
      target language, and four optional settings. */
  class UploadDocumentRequester {
    var client: DeepLApi
    var filePath: string
    var targetLang: Language.Lang
    var sourceLang: Option<Language.Lang>
    var filename: Option<string>
    var formality: Option<Formality>
    var glossaryId: Option<string>

    function Settings(): UploadSettings
      reads this
    {
      UploadSettings(filePath, targetLang, sourceLang, filename, formality, glossaryId)
    }

    /** `new(client, file_path, target_lang)`: the required fields as given,
        every optional one unset. */
    constructor New(client: DeepLApi, filePath: string, targetLang: Language.Lang)
      ensures this.client == client
      ensures Settings() == UploadSettings(filePath, targetLang, None, None, None, None)
    {
      this.client := client;
      this.filePath := filePath;
      this.targetLang := targetLang;
      sourceLang, filename, formality, glossaryId := None, None, None, None;
    }

    method SetSourceLang(v: Language.Lang) returns (self: UploadDocumentRequester)
      modifies this
      ensures self == this && client == old(client)
      ensures Settings() == old(Settings()).(sourceLang := Some(v))
    {
      sourceLang := Some(v);
      self := this;
    }

    method SetFilename(v: string) returns (self: UploadDocumentRequester)
      modifies this
      ensures self == this && client == old(client)
      ensures Settings() == old(Settings()).(filename := Some(v))
    {
      filename := Some(v);
      self := this;
    }

    method SetFormality(v: Formality) returns (self: UploadDocumentRequester)
      modifies this
      ensures self == this && client == old(client)
      ensures Settings() == old(Settings()).(formality := Some(v))
    {
      formality := Some(v);
      self := this;
    }

    method SetGlossaryId(v: string) returns (self: UploadDocumentRequester)
      modifies this
      ensures self == this && client == old(client)
      ensures Settings() == old(Settings()).(glossaryId := Some(v))
    {
      glossaryId := Some(v);
      self := this;
    }

    /** `to_multipart_form`: the form is extended field by field; the read
        failure returns early, and a missing file name panics after the
        read. */
    method ToMultipartForm(fileRead: Result<seq<bv8>, IoError>) returns (r: Outcome<Result<Form, Error>>)
      ensures r == MultipartForm(Settings(), fileRead)
    {
      var form: Form := [];
      if sourceLang.Some? {
        form := form + [FormField("source_lang", Text(Language.ToString(sourceLang.value)))];
      }
      ghost var sent := OptionalText("source_lang", LangCode(sourceLang));
      assert form == sent;
      form := form + [FormField("target_lang", Text(Language.ToString(targetLang)))];
      sent := sent + [FormField("target_lang", Text(Language.ToString(targetLang)))];
      if fileRead.Err? {
        return Returns(Err(ReadFileError(filePath, fileRead.error)));
      }
      var partName: string;
      if filename.Some? {
        partName := filename.value;
        form := form + [FormField("filename", Text(filename.value))];
      } else {
        var name := FileName(filePath);
        if name.None? {
          return Panics(NoFileNameMessage);
        }
        partName := name.value;
      }
      sent := sent + OptionalText("filename", filename);
      assert form == sent;
      form := form + [FormField("file", FilePart(partName, fileRead.value))];
      sent := sent + [FormField("file", FilePart(PartName(Settings()).value, fileRead.value))];
      if formality.Some? {
        form := form + [FormField("formality", Text(FormalityDisplay(formality.value)))];
      }
      sent := sent + OptionalText("formality", FormalityText(formality));
      assert form == sent;
      if glossaryId.Some? {
        form := form + [FormField("glossary_id", Text(glossaryId.value))];
      }
      sent := sent + OptionalText("glossary_id", glossaryId);
      assert form == sent;
      return Returns(Ok(form));
    }
  }
}
