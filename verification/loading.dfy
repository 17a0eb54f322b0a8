/** Reading an uploaded design document in test_tc_generator/app.py: load_document chooses a
    loader by file extension, and split_into_sentences cuts every page into chunks that keep
    the page's metadata. The loaders and the text splitter are parameters. */
module Loading {
  import opened Values

  /** os.path.splitext(path)[1] on POSIX paths: from the last '.' of the last path component,
      unless every character before that dot in the component is a dot too (".bashrc" has no
      extension); "" when there is no such dot. */
  function Extension(path: string): (ext: string)
    ensures ext == "" || (|ext| <= |path| && ext == path[|path| - |ext|..] && ext[0] == '.')
    ensures forall i :: 0 <= i < |ext| ==> ext[i] != '/'
    ensures forall i :: 1 <= i < |ext| ==> ext[i] != '.'
    ensures ext != "" ==> exists i :: LastIndex(path, '/') < i < |path| - |ext| && path[i] != '.'
  {
    var sep := LastIndex(path, '/');
    var dot := LastIndex(path, '.');
    if dot > sep && exists i :: sep < i < dot && path[i] != '.' then path[dot..] else ""
  }

  /** A last path component with a dot after a character that is not a dot has an extension. */
  lemma {:induction false} DottedNameHasExtension(path: string, i: nat, j: nat)
    requires LastIndex(path, '/') < i < j < |path| && path[i] != '.' && path[j] == '.'
    ensures Extension(path) != ""
  {
  }

  /** The loaders of lines 29-34. */
  datatype Loader = PdfLoader | WordLoader

  /** Lines 29-35: the loader for a lower-cased extension, if the format is supported. */
  function ExtensionLoader(ext: string): Option<Loader> {
    if ext == ".pdf" then Some(PdfLoader)
    else if ext == ".docx" || ext == ".doc" then Some(WordLoader)
    else None
  }

  /** Lines 27-35: the loader for the path's lower-cased extension. */
  function LoaderFor(path: string): Option<Loader> {
    ExtensionLoader(LowerAscii(Extension(path)))
  }

  /** load_document: the pages the chosen loader reads, or None for an unsupported format
      (the st.error message is not modelled). */
  function LoadDocument(path: string, load: (Loader, string) -> seq<Document>): (r: Option<seq<Document>>)
    ensures r.Some? <==> LowerAscii(Extension(path)) in [".pdf", ".docx", ".doc"]
    ensures r.Some? ==> LoaderFor(path).Some? && r == Some(load(LoaderFor(path).value, path))
  {
    match LoaderFor(path)
    case Some(loader) => Some(load(loader, path))
    case None => None
  }

  /** A file name stem followed by an extension has that extension, whatever the case of its
      letters, provided the stem's last component has a character that is not a dot. */
  lemma {:induction false} StemThenExtension(stem: string, ext: string, k: nat)
    requires |ext| >= 1 && ext[0] == '.'
    requires forall i :: 1 <= i < |ext| ==> ext[i] != '.' && ext[i] != '/'
    requires k < |stem| && stem[k] != '.' && stem[k] != '/'
    requires forall i :: k < i < |stem| ==> stem[i] != '/'
    ensures Extension(stem + ext) == ext
  {
    var path := stem + ext;
    var dot := |stem|;
    assert path[dot] == '.';
    assert forall i :: dot < i < |path| ==> path[i] == ext[i - dot];
    assert LastIndex(path, '.') == dot;
    assert LastIndex(path, '/') < k;
    assert path[k] != '.';
    assert path[dot..] == ext;
  }

  /** A stem followed by an extension gets the loader of that extension. */
  lemma {:induction false} LoaderOfStem(stem: string, ext: string, k: nat)
    requires |ext| >= 1 && ext[0] == '.'
    requires forall i :: 1 <= i < |ext| ==> ext[i] != '.' && ext[i] != '/'
    requires k < |stem| && stem[k] != '.' && stem[k] != '/'
    requires forall i :: k < i < |stem| ==> stem[i] != '/'
    ensures LoaderFor(stem + ext) == ExtensionLoader(LowerAscii(ext))
  {
    StemThenExtension(stem, ext, k);
  }

  /** The loaders of some extensions, in the case they are written. */
  lemma ExtensionCases()
    ensures ExtensionLoader(LowerAscii(".PDF")) == Some(PdfLoader)
    ensures ExtensionLoader(LowerAscii(".doc")) == Some(WordLoader)
    ensures ExtensionLoader(LowerAscii(".xlsx")) == None
  {
    assert LowerAscii(".PDF") == ".pdf";
    assert LowerAscii(".doc") == ".doc";
    assert LowerAscii(".xlsx") == ".xlsx";
  }

  lemma {:induction false} LastIndexIs(s: string, c: char, i: nat)
    requires i < |s| && s[i] == c && forall k :: i < k < |s| ==> s[k] != c
    ensures LastIndex(s, c) == i
  {
  }

  /** The case of the extension does not matter: any file name with a stem, ".PDF" included,
      goes to the PDF loader. */
  lemma PdfInAnyCase(stem: string, k: nat)
    requires k < |stem| && stem[k] != '.' && stem[k] != '/'
    requires forall i :: k < i < |stem| ==> stem[i] != '/'
    ensures LoaderFor(stem + ".PDF") == Some(PdfLoader)
  {
    LoaderOfStem(stem, ".PDF", k);
    ExtensionCases();
  }

  /** Only the last extension counts: "<stem>.v2.doc" goes to the Word loader. */
  lemma LastExtensionCounts(stem: string, k: nat)
    requires k < |stem| && stem[k] != '.' && stem[k] != '/'
    requires forall i :: k < i < |stem| ==> stem[i] != '/'
    ensures LoaderFor(stem + ".v2" + ".doc") == Some(WordLoader)
  {
    LoaderOfStem(stem + ".v2", ".doc", k);
    ExtensionCases();
  }

  /** Other formats are refused, even after a supported one: "<stem>.pdf.xlsx" has no loader. */
  lemma UnsupportedFormat(stem: string, k: nat)
    requires k < |stem| && stem[k] != '.' && stem[k] != '/'
    requires forall i :: k < i < |stem| ==> stem[i] != '/'
    ensures LoaderFor(stem + ".pdf" + ".xlsx") == None
  {
    LoaderOfStem(stem + ".pdf", ".xlsx", k);
    ExtensionCases();
  }

  /** A name that is nothing but an extension has none. */
  lemma BareExtensionRefused()
    ensures LoaderFor(".pdf") == None
  {
    LastIndexIs(".pdf", '.', 0);
  }

  /** A dot in a directory name is not an extension. */
  lemma DottedDirectoryRefused()
    ensures LoaderFor("scans.pdf/page") == None
  {
    LastIndexIs("scans.pdf/page", '.', 5);
    LastIndexIs("scans.pdf/page", '/', 9);
  }

  /** The chunks of one page, each with the page's metadata (lines 50-52). */
  function Chunks(doc: Document, split: string -> seq<string>): (r: seq<Document>)
    ensures |r| == |split(doc.pageContent)|
    ensures forall j :: 0 <= j < |r| ==> r[j] == Document(split(doc.pageContent)[j], doc.metadata)
  {
    var texts := split(doc.pageContent);
    seq(|texts|, j requires 0 <= j < |texts| => Document(texts[j], doc.metadata))
  }

  /** The output of lines 48-54 for the given pages. */
  function Flatten(documents: seq<Document>, split: string -> seq<string>): seq<Document> {
    if documents == [] then []
    else
      var n := |documents| - 1;
      Flatten(documents[..n], split) + Chunks(documents[n], split)
  }

  /** split_into_sentences, with the text splitter as the parameter `split`. */
  method SplitIntoSentences(documents: seq<Document>, split: string -> seq<string>) returns (sentences: seq<Document>)
    ensures sentences == Flatten(documents, split)
  {
    sentences := [];
    var i := 0;
    while i < |documents|
      invariant 0 <= i <= |documents|
      invariant sentences == Flatten(documents[..i], split)
    {
      var doc := documents[i];
      var chunks := split(doc.pageContent);
      ghost var before := sentences;
      var j := 0;
      while j < |chunks|
        invariant 0 <= j <= |chunks|
        invariant sentences == before + Chunks(doc, split)[..j]
      {
        sentences := sentences + [Document(chunks[j], doc.metadata)];
        assert Chunks(doc, split)[..j + 1] == Chunks(doc, split)[..j] + [Document(chunks[j], doc.metadata)];
        j := j + 1;
      }
      assert Chunks(doc, split)[..j] == Chunks(doc, split);
      assert documents[..i + 1][..i] == documents[..i];
      i := i + 1;
    }
    assert documents[..i] == documents;
  }

  /** Where the chunks of page i start in the output. */
  function Offset(documents: seq<Document>, split: string -> seq<string>, i: nat): nat
    requires i <= |documents|
  {
    |Flatten(documents[..i], split)|
  }

  /** The chunks of the pages before page n come first, unchanged. */
  lemma {:induction false} FlattenPrefix(documents: seq<Document>, split: string -> seq<string>, n: nat)
    requires n <= |documents|
    ensures Flatten(documents[..n], split) <= Flatten(documents, split)
    decreases |documents| - n
  {
    if n < |documents| {
      var m := |documents| - 1;
      FlattenPrefix(documents[..m], split, n);
      assert documents[..m][..n] == documents[..n];
      assert documents[..m] == documents[..|documents| - 1];
    } else {
      assert documents[..n] == documents;
    }
  }

  /** The output is the pages' chunks in page order: chunk j of page i sits at
      Offset(i) + j and carries page i's metadata. */
  lemma {:induction false} FlattenLayout(documents: seq<Document>, split: string -> seq<string>, i: nat, j: nat)
    requires i < |documents| && j < |split(documents[i].pageContent)|
    ensures Offset(documents, split, i) + j < |Flatten(documents, split)|
    ensures Flatten(documents, split)[Offset(documents, split, i) + j] ==
      Document(split(documents[i].pageContent)[j], documents[i].metadata)
  {
    var prefix := documents[..i + 1];
    assert prefix[..i] == documents[..i];
    FlattenPrefix(documents, split, i + 1);
  }

  /** Every chunk of the output is some chunk of some page: with FlattenLayout, the output is
      exactly the pages' chunks and nothing else. */
  lemma {:induction false} FlattenOrigin(documents: seq<Document>, split: string -> seq<string>, k: nat) returns (i: nat, j: nat)
    requires k < |Flatten(documents, split)|
    ensures i < |documents| && j < |split(documents[i].pageContent)|
    ensures k == Offset(documents, split, i) + j
  {
    var n := |documents| - 1;
    var init := documents[..n];
    if k < |Flatten(init, split)| {
      i, j := FlattenOrigin(init, split, k);
      assert init[..i] == documents[..i];
    } else {
      i, j := n, k - |Flatten(init, split)|;
    }
  }
}
