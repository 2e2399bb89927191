/**
Configuration and request normalisation: defaults, collection resolution, tag canonicalisation,
and the exact condition under which normalising twice is the same as normalising once.
*/
module Requests {
  import opened Text
  import opened StringOrder

  // ---- Tags ----

  // The trimmed, non-empty tags of a list.
  function TagSet(tags: seq<string>): set<string> {
    set t | t in tags && Trim(t) != "" :: Trim(t)
  }

  function NormalTags(tags: seq<string>): seq<string> {
    if tags == [] then []
    else
      var t := Trim(tags[|tags| - 1]);
      var r := NormalTags(tags[..|tags| - 1]);
      if t == "" || t in r then r else Insert(t, r)
  }

  lemma {:induction false} NormalTagsShape(tags: seq<string>)
    ensures Ascending(NormalTags(tags)) && Elements(NormalTags(tags)) == TagSet(tags)
  {
    hide Trim, TagSet, Ascending, Elements, Insert;
    if tags == [] {
      NoTags();
    } else {
      var init := tags[..|tags| - 1];
      var t := Trim(tags[|tags| - 1]);
      var r := NormalTags(init);
      NormalTagsShape(init);
      TagSetStep(tags);
      InElements(t, r);
      if t != "" && t !in r { InsertKeepsOrder(t, r); }
    }
  }

  lemma NoTags()
    ensures Ascending([]) && Elements([]) == TagSet([]) == {}
  {}

  lemma TagSetStep(tags: seq<string>)
    requires tags != []
    ensures var t := Trim(tags[|tags| - 1]);
            TagSet(tags) == TagSet(tags[..|tags| - 1]) + if t == "" then {} else {t}
  {
    hide Trim;
    var init := tags[..|tags| - 1];
    assert tags == init + [tags[|tags| - 1]];
    assert forall x :: x in tags <==> x in init || x == tags[|tags| - 1];
  }

  // The loop of normalizeTags: one pass with a seen set.
  method DistinctTags(tags: seq<string>) returns (out: seq<string>)
    ensures Elements(out) == TagSet(tags)
    ensures forall j, k | 0 <= j < k < |out| :: out[j] != out[k]
  {
    hide *;
    out := [];
    var seen := {};
    NoTags();
    for i := 0 to |tags|
      invariant seen == Elements(out) == TagSet(tags[..i])
      invariant forall j, k | 0 <= j < k < |out| :: out[j] != out[k]
    {
      TagSetStep(tags[..i + 1]);
      assert tags[..i + 1][..i] == tags[..i];
      var tag := Trim(tags[i]);
      if tag == "" {
        continue;
      }
      InElements(tag, out);
      if tag in seen {
        continue;
      }
      seen := seen + {tag};
      ElementsAppend(out, tag);
      out := out + [tag];
    }
    assert tags[..|tags|] == tags;
  }

  // normalizeTags
  method NormalizeTags(tags: seq<string>) returns (out: seq<string>)
    ensures out == NormalTags(tags)
  {
    if |tags| == 0 {
      return [];
    }
    out := DistinctTags(tags);
    ghost var distinct := out;
    NormalTagsShape(tags);
    out := SortStrings(out);
    SortedIsAscending(distinct, out);
    AscendingUnique(out, NormalTags(tags));
  }

  // Two lists normalise alike exactly when they hold the same trimmed non-empty tags.
  lemma TagsCanonical(a: seq<string>, b: seq<string>)
    ensures NormalTags(a) == NormalTags(b) <==> TagSet(a) == TagSet(b)
  {
    NormalTagsShape(a);
    NormalTagsShape(b);
    if TagSet(a) == TagSet(b) {
      AscendingUnique(NormalTags(a), NormalTags(b));
    }
  }

  lemma TagsIdempotent(tags: seq<string>)
    ensures NormalTags(NormalTags(tags)) == NormalTags(tags)
  {
    var r := NormalTags(tags);
    NormalTagsShape(tags);
    forall t | t in tags
      ensures Trim(Trim(t)) == Trim(t)
    {
      TrimIdempotent(t);
    }
    hide Trim;
    assert forall t | t in r :: t in Elements(r);
    assert TagSet(r) == Elements(r);
    TagsCanonical(r, tags);
  }

  // ---- Requests ----

  // Canonical metadata JSON is an opaque text with equality; nil metadata is the encoding of {}.
  datatype Request = Request(
    collection: string,
    documentId: string,
    title: string,
    content: string,
    sourceUri: string,
    tags: seq<string>,
    metadata: string)

  function ResolveCollection(defaultCollection: string, collection: string): string {
    if Trim(collection) == "" then defaultCollection else Trim(collection)
  }

  function NormalizeRequest(defaultCollection: string, r: Request): Request {
    Request(
      ResolveCollection(defaultCollection, r.collection),
      Trim(r.documentId),
      Trim(r.title),
      NormalizeText(r.content),
      Trim(r.sourceUri),
      NormalTags(r.tags),
      r.metadata)
  }

  // What normalisation makes of each field: names and texts lose the white space at their ends and
  // nothing else, an unnamed collection is the default, the content's lines end in "\n", and the tags
  // are the trimmed non-empty ones in ascending order, each once.
  lemma NormalizedFields(defaultCollection: string, r: Request)
    ensures var n := NormalizeRequest(defaultCollection, r);
      && (if Blank(r.collection) then n.collection == defaultCollection else Core(r.collection, n.collection))
      && Core(r.documentId, n.documentId) && Core(r.title, n.title) && Core(r.sourceUri, n.sourceUri)
      && Core(UnixLines(r.content), n.content)
      && Ascending(n.tags) && Elements(n.tags) == TagSet(r.tags)
      && n.metadata == r.metadata
  {
    hide Trim, UnixLines, Core;
    TrimBlank(r.collection);
    CoreIsTrim(r.collection, Trim(r.collection));
    CoreIsTrim(r.documentId, Trim(r.documentId));
    CoreIsTrim(r.title, Trim(r.title));
    CoreIsTrim(r.sourceUri, Trim(r.sourceUri));
    CoreIsTrim(UnixLines(r.content), Trim(UnixLines(r.content)));
    NormalTagsShape(r.tags);
    hide NormalTags, Ascending, Elements, TagSet, Blank;
  }

  // Config.normalized does not trim DefaultCollection, so a default such as " kb " is used as
  // it stands the first time and trimmed when the resolved name is resolved again.
  predicate StableDefault(defaultCollection: string) {
    Trim(defaultCollection) == "" || Trim(defaultCollection) == defaultCollection
  }

  // Whether the key of a call stays the same when a restart normalises the request again: the caller
  // named a collection, or the configured default is already trimmed (or blank).
  predicate KeyStable(defaultCollection: string, collection: string) {
    Trim(collection) != "" || StableDefault(defaultCollection)
  }

  lemma ResolveTwice(d: string, c: string)
    ensures ResolveCollection(d, ResolveCollection(d, c)) == ResolveCollection(d, c)
            <==> KeyStable(d, c)
  {
    hide Trim;
    TrimIdempotent(c);
  }

  // Normalising a request twice is normalising it once exactly when its key is stable.
  lemma NormalizeTwice(d: string, r: Request)
    ensures NormalizeRequest(d, NormalizeRequest(d, r)) == NormalizeRequest(d, r)
            <==> KeyStable(d, r.collection)
  {
    ResolveTwice(d, r.collection);
    TrimIdempotent(r.documentId);
    TrimIdempotent(r.title);
    TrimIdempotent(r.sourceUri);
    NormalizeTextIdempotent(r.content);
    TagsIdempotent(r.tags);
  }

  lemma TrimSpaceKb()
    ensures Trim(" kb") == "kb"
  {
    assert IsSpace(' ') && !IsSpace('k') && !IsSpace('b');
    hide IsSpace;
    assert " kb"[1..] == "kb";
    assert TrimLeft("kb") == "kb";
    assert TrimLeft(" kb") == TrimLeft("kb");
    TrimFixed("kb");
    hide TrimLeft, TrimRight;
  }

  // The failing family is not empty: an untrimmed default moves an unnamed request to another
  // collection when a restart normalises it again.
  lemma UntrimmedDefaultMoves(r: Request)
    requires r.collection == ""
    ensures NormalizeRequest(" kb", r).collection == " kb"
    ensures NormalizeRequest(" kb", NormalizeRequest(" kb", r)).collection == "kb"
  {
    assert Trim("") == "";
    hide Trim, NormalTags, NormalizeText;
    TrimSpaceKb();
    assert Trim(" kb") != "";
  }

  // validateDocumentRequest together with the document-size check of writeDocument
  predicate ValidRequest(maxDocumentBytes: int, byteLength: string -> nat, r: Request) {
    r.documentId != "" && r.content != "" && byteLength(r.content) <= maxDocumentBytes
  }

  // A write is turned away exactly when its document id or its content is blank, or its content, once
  // normalised, is over the limit.
  lemma RejectedExactly(d: string, maxDocumentBytes: int, byteLength: string -> nat, r: Request)
    ensures !ValidRequest(maxDocumentBytes, byteLength, NormalizeRequest(d, r)) <==>
      Blank(r.documentId) || Blank(r.content) || byteLength(NormalizeText(r.content)) > maxDocumentBytes
  {
    TrimBlank(r.documentId);
    NormalizeTextErased(r.content);
    hide Trim, NormalizeText, Blank, NormalTags;
  }
}
