/** The document adapter: takes raw manifest text, patches it as one JSON
    document when it can, and otherwise as a stream of YAML documents in
    which only the Deployments are patched and every other document is
    re-emitted as the YAML library renders it, unpatched.

    Parsing and serialising are done by libraries; here they are the given
    functions of a `Formats` value, and documents are their parsed values. */
module DocumentAdapter {
  import opened Wrappers
  import opened Manifest
  import opened Patcher

  /** A parsed manifest. `pod` is the pod spec at `spec.template.spec`, or
      None when that path or its `containers` list is missing (reaching it
      then throws). `others` stands for every other key (apiVersion,
      metadata, replicas, ...), which the patcher carries through untouched. */
  datatype Workload = Workload(kind: Option<string>, pod: Option<Pod>, others: string)

  /** One document of a YAML stream: `text` is the YAML library's rendering
      of the parsed document (`doc.toString()`), which keeps its comments and
      layout as far as the library does, and `value` is the document as a
      plain object, None when that value is null (an empty document). */
  datatype YamlDoc = YamlDoc(text: string, value: Option<Workload>)

  /** Why the YAML path throws: a null document has no `kind` to read, and a
      Deployment without a pod spec cannot be patched. */
  datatype Fault = NullDocument | MissingPodSpec

  /** The parsing and serialising libraries. `parseJson` yields None when the
      text is not JSON. */
  datatype Formats = Formats(
    parseJson: string -> Option<Workload>,
    toJson: Workload -> string,
    parseYaml: string -> seq<YamlDoc>,
    toYaml: Workload -> string)

  predicate IsDeployment(w: Workload) {
    w.kind == Some("Deployment")
  }

  /** A workload whose pod spec has been patched, everything else kept. */
  function PatchedWorkload(w: Workload, o: Options, ext: Collaborators): Workload
    requires w.pod.Some?
  {
    w.(pod := Some(Patched(w.pod.value, o, ext)))
  }

  /** Whether the JSON path completes: the text is JSON and the pod spec is
      reachable. Any other outcome is a throw that sends control to the YAML
      path. */
  predicate DenseApplies(parsed: Option<Workload>) {
    parsed.Some? && parsed.value.pod.Some?
  }

  /** What one YAML document contributes to the output. */
  function DocPiece(d: YamlDoc, o: Options, ext: Collaborators, f: Formats): Result<string, Fault> {
    match d.value
    case None => Err(NullDocument)
    case Some(w) =>
      if !IsDeployment(w) then Ok(d.text)
      else if w.pod.None? then Err(MissingPodSpec)
      else Ok(f.toYaml(PatchedWorkload(w, o, ext)))
  }

  /** The output of the YAML path: the pieces in order, or the fault of the
      first document that throws. */
  function RenderDocs(docs: seq<YamlDoc>, o: Options, ext: Collaborators, f: Formats): Result<string, Fault>
    decreases |docs|
  {
    if docs == [] then Ok("")
    else
      match RenderDocs(docs[..|docs| - 1], o, ext, f)
      case Err(e) => Err(e)
      case Ok(s) =>
        match DocPiece(docs[|docs| - 1], o, ext, f)
        case Err(e) => Err(e)
        case Ok(t) => Ok(s + t)
  }

  /** The strings of `ss`, one after the other. */
  function Join(ss: seq<string>): string {
    if ss == [] then "" else ss[0] + Join(ss[1..])
  }

  /** The text one document contributes when it does not throw. */
  function PieceText(d: YamlDoc, o: Options, ext: Collaborators, f: Formats): string {
    match DocPiece(d, o, ext, f)
    case Ok(t) => t
    case Err(_) => ""
  }

  method PatchRawDeployment(raw: string, o: Options, ext: Collaborators, f: Formats)
    returns (r: Result<string, Fault>)
    ensures DenseApplies(f.parseJson(raw)) ==>
      r == Ok(f.toJson(PatchedWorkload(f.parseJson(raw).value, o, ext)))
    ensures !DenseApplies(f.parseJson(raw)) ==>
      r == RenderDocs(f.parseYaml(raw), o, ext, f)
  {
    var parsed := f.parseJson(raw);
    if parsed.Some? && parsed.value.pod.Some? {
      var deployment := parsed.value;
      var spec := new PodSpec(deployment.pod.value);
      spec.PatchDeployment(o, ext);
      return Ok(f.toJson(deployment.(pod := Some(spec.Value()))));
    }
    var result := "";
    var documents := f.parseYaml(raw);
    for i := 0 to |documents|
      invariant RenderDocs(documents[..i], o, ext, f) == Ok(result)
    {
      var doc := documents[i];
      assert documents[..i + 1][..i] == documents[..i];
      if doc.value.None? {
        RenderPrefixErr(documents, i + 1, NullDocument, o, ext, f);
        return Err(NullDocument);
      }
      var obj := doc.value.value;
      if obj.kind == Some("Deployment") {
        if obj.pod.None? {
          RenderPrefixErr(documents, i + 1, MissingPodSpec, o, ext, f);
          return Err(MissingPodSpec);
        }
        var spec := new PodSpec(obj.pod.value);
        spec.PatchDeployment(o, ext);
        result := result + f.toYaml(obj.(pod := Some(spec.Value())));
      } else {
        result := result + doc.text;
      }
    }
    assert documents[..|documents|] == documents;
    r := Ok(result);
  }

  /** Once a prefix of the stream throws, the whole stream does, with the
      same fault: no partial output. */
  lemma {:induction false} RenderPrefixErr(docs: seq<YamlDoc>, n: nat, e: Fault, o: Options, ext: Collaborators, f: Formats)
    requires n <= |docs| && RenderDocs(docs[..n], o, ext, f) == Err(e)
    ensures RenderDocs(docs, o, ext, f) == Err(e)
    decreases |docs| - n
  {
    if n < |docs| {
      assert docs[..n + 1][..n] == docs[..n];
      RenderPrefixErr(docs, n + 1, e, o, ext, f);
    } else {
      assert docs[..n] == docs;
    }
  }

  /** The YAML path throws exactly when some document is null or is a
      Deployment without a pod spec. */
  lemma {:induction false} RenderOkIff(docs: seq<YamlDoc>, o: Options, ext: Collaborators, f: Formats)
    ensures RenderDocs(docs, o, ext, f).Ok? <==>
      forall i :: 0 <= i < |docs| ==> DocPiece(docs[i], o, ext, f).Ok?
    decreases |docs|
  {
    if docs != [] {
      var init := docs[..|docs| - 1];
      RenderOkIff(init, o, ext, f);
      assert forall i :: 0 <= i < |init| ==> init[i] == docs[i];
    }
  }

  lemma {:induction false} JoinSnoc(ss: seq<string>, s: string)
    ensures Join(ss + [s]) == Join(ss) + s
  {
    if ss != [] {
      assert (ss + [s])[1..] == ss[1..] + [s];
      JoinSnoc(ss[1..], s);
    }
  }

  /** When no document throws, the output is the documents' pieces joined in
      their original order. */
  lemma {:induction false} RenderJoinsPieces(docs: seq<YamlDoc>, o: Options, ext: Collaborators, f: Formats)
    requires forall i :: 0 <= i < |docs| ==> DocPiece(docs[i], o, ext, f).Ok?
    ensures RenderDocs(docs, o, ext, f) ==
      Ok(Join(seq(|docs|, i requires 0 <= i < |docs| => PieceText(docs[i], o, ext, f))))
    decreases |docs|
  {
    if docs != [] {
      var n := |docs| - 1;
      var init := docs[..n];
      RenderJoinsPieces(init, o, ext, f);
      var pieces := seq(|docs|, i requires 0 <= i < |docs| => PieceText(docs[i], o, ext, f));
      var initPieces := seq(|init|, i requires 0 <= i < |init| => PieceText(init[i], o, ext, f));
      assert pieces == initPieces + [PieceText(docs[n], o, ext, f)];
      JoinSnoc(initPieces, PieceText(docs[n], o, ext, f));
    }
  }

  /** A stream without Deployments (and without null documents) comes out as
      its documents' own renderings, in order. */
  lemma NonDeploymentsPassThrough(docs: seq<YamlDoc>, o: Options, ext: Collaborators, f: Formats)
    requires forall i :: 0 <= i < |docs| ==> docs[i].value.Some? && !IsDeployment(docs[i].value.value)
    ensures RenderDocs(docs, o, ext, f) == Ok(Join(seq(|docs|, i requires 0 <= i < |docs| => docs[i].text)))
  {
    RenderJoinsPieces(docs, o, ext, f);
    assert seq(|docs|, i requires 0 <= i < |docs| => PieceText(docs[i], o, ext, f))
        == seq(|docs|, i requires 0 <= i < |docs| => docs[i].text);
  }
}
