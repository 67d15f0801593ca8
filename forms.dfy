/**
 * The multipart bodies of the two photo uploads: one `fotos` entry per file,
 * in order, then `descricao` (default `''`), and for service orders
 * `antes_servico` (default `true`).
 */
module Forms {
  import opened Js
  import opened Http

  /** The `fotos` entries for `files`, one per file (defined from the last file backwards). */
  function PhotoEntries(files: seq<File>): (entries: seq<FormEntry>)
    ensures |entries| == |files|
    ensures forall i :: 0 <= i < |files| ==> entries[i] == FormEntry("fotos", FileValue(files[i]))
  {
    if files == [] then []
    else PhotoEntries(files[..|files| - 1]) + [FormEntry("fotos", FileValue(files[|files| - 1]))]
  }

  /** The body of `VistoriaService.uploadFotos`. */
  function InspectionPhotoForm(files: seq<File>, descricao: JsValue): seq<FormEntry>
  {
    PhotoEntries(files) + [FormEntry("descricao", Text(ToStr(Default(descricao, Str("")))))]
  }

  /** The body of `OrdemServicoService.uploadFotos`. */
  function OrderPhotoForm(files: seq<File>, descricao: JsValue, antesServico: JsValue): seq<FormEntry>
  {
    InspectionPhotoForm(files, descricao) + [FormEntry("antes_servico", Text(ToStr(Default(antesServico, Bool(true)))))]
  }

  /** The files carried by a form, in order: the values of its `fotos` entries. */
  function FilesOf(form: seq<FormEntry>): seq<File>
  {
    if form == [] then []
    else
      var last := form[|form| - 1];
      FilesOf(form[..|form| - 1]) + (if last.name == "fotos" && last.value.FileValue? then [last.value.file] else [])
  }

  /** The `for` loop that appends the `fotos` entries, then the `descricao` entry. */
  method BuildInspectionPhotoForm(files: seq<File>, descricao: JsValue) returns (form: seq<FormEntry>)
    ensures form == InspectionPhotoForm(files, descricao)
  {
    form := [];
    var i := 0;
    while i < |files|
      invariant 0 <= i <= |files|
      invariant form == PhotoEntries(files[..i])
    {
      assert files[..i + 1][..i] == files[..i];
      form := form + [FormEntry("fotos", FileValue(files[i]))];
      i := i + 1;
    }
    assert files[..i] == files;
    form := form + [FormEntry("descricao", Text(ToStr(Default(descricao, Str("")))))];
  }

  /** The same loop for service orders, then `descricao` and `antes_servico`. */
  method BuildOrderPhotoForm(files: seq<File>, descricao: JsValue, antesServico: JsValue) returns (form: seq<FormEntry>)
    ensures form == OrderPhotoForm(files, descricao, antesServico)
  {
    form := [];
    var i := 0;
    while i < |files|
      invariant 0 <= i <= |files|
      invariant form == PhotoEntries(files[..i])
    {
      assert files[..i + 1][..i] == files[..i];
      form := form + [FormEntry("fotos", FileValue(files[i]))];
      i := i + 1;
    }
    assert files[..i] == files;
    form := form + [FormEntry("descricao", Text(ToStr(Default(descricao, Str("")))))];
    form := form + [FormEntry("antes_servico", Text(ToStr(Default(antesServico, Bool(true)))))];
  }

  lemma {:induction false} FilesOfAppend(a: seq<FormEntry>, b: seq<FormEntry>)
    ensures FilesOf(a + b) == FilesOf(a) + FilesOf(b)
    decreases |b|
  {
    if b == [] {
      assert a + b == a;
    } else {
      var b' := b[..|b| - 1];
      assert (a + b)[..|a + b| - 1] == a + b';
      FilesOfAppend(a, b');
    }
  }

  lemma {:induction false} PhotoEntriesCarryFiles(files: seq<File>)
    ensures FilesOf(PhotoEntries(files)) == files
  {
    if files != [] {
      var init := files[..|files| - 1];
      PhotoEntriesCarryFiles(init);
      FilesOfAppend(PhotoEntries(init), [FormEntry("fotos", FileValue(files[|files| - 1]))]);
      assert [] + [FormEntry("fotos", FileValue(files[|files| - 1]))] == [FormEntry("fotos", FileValue(files[|files| - 1]))];
      assert init + [files[|files| - 1]] == files;
    }
  }

  /**
   * Both upload bodies carry exactly the chosen files, in order, followed by the
   * description (`''` when omitted) and, for service orders, the before/after flag
   * (`"true"` when omitted).
   */
  lemma PhotoFormsCarryFiles(files: seq<File>, descricao: JsValue, antesServico: JsValue)
    ensures FilesOf(InspectionPhotoForm(files, descricao)) == files
    ensures FilesOf(OrderPhotoForm(files, descricao, antesServico)) == files
    ensures |InspectionPhotoForm(files, descricao)| == |files| + 1
    ensures InspectionPhotoForm(files, descricao)[|files|].name == "descricao"
    ensures descricao.Undefined? ==> InspectionPhotoForm(files, descricao)[|files|].value == Text("")
    ensures |OrderPhotoForm(files, descricao, antesServico)| == |files| + 2
    ensures antesServico.Undefined? ==>
      OrderPhotoForm(files, descricao, antesServico)[|files| + 1] == FormEntry("antes_servico", Text("true"))
  {
    var desc := [FormEntry("descricao", Text(ToStr(Default(descricao, Str("")))))];
    var flag := [FormEntry("antes_servico", Text(ToStr(Default(antesServico, Bool(true)))))];
    PhotoEntriesCarryFiles(files);
    FilesOfAppend(PhotoEntries(files), desc);
    assert FilesOf(desc) == FilesOf([]) + [];
    FilesOfAppend(InspectionPhotoForm(files, descricao), flag);
    assert FilesOf(flag) == FilesOf([]) + [];
  }
}
