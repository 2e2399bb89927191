/**
What the store promises as a whole: one atomic map from (collection, document id) to document.
A history of commits is replayed against it, one indivisible operation per commit.
*/
module AtomicDocuments {
  import opened Requests
  import opened Tables

  datatype Document = Document(meta: Meta, contentHash: string, chunkCount: int, pieces: set<Piece>)

  type Documents = map<Key, Document>

  datatype Action = Noop | MetadataRefresh | Reindex

  datatype Stats = Stats(key: Key, contentHash: string, chunkCount: int)

  // One commit: who made it, what it did, and the keys whose rows it changed.
  datatype Event =
    | Wrote(pid: nat, req: Request, contentHash: string, force: bool, prepared: seq<Piece>, stats: Stats,
            changed: set<Key>)
    | Removed(pid: nat, key: Key, changed: set<Key>)
    | Dropped(pid: nat, collection: string, changed: set<Key>)

  function KeyOf(r: Request): Key {
    Key(r.collection, r.documentId)
  }

  function MetaOf(r: Request): Meta {
    Meta(r.title, r.sourceUri, r.tags, r.metadata)
  }

  function PieceSet(ps: seq<Piece>): set<Piece> {
    set i | 0 <= i < |ps| :: ps[i]
  }

  // What a write has to do, decided against the document as it is.
  function Decide(m: Documents, k: Key, meta: Meta, contentHash: string, force: bool): Action {
    if force || k !in m || m[k].chunkCount <= 0 || m[k].contentHash != contentHash then Reindex
    else if m[k].meta != meta then MetadataRefresh
    else Noop
  }

  function Write(m: Documents, k: Key, meta: Meta, contentHash: string, force: bool, prepared: seq<Piece>): Documents {
    match Decide(m, k, meta, contentHash, force)
    case Noop => m
    case MetadataRefresh => m[k := m[k].(meta := meta)]
    case Reindex => m[k := Document(meta, contentHash, |prepared|, PieceSet(prepared))]
  }

  function Apply(m: Documents, e: Event): Documents {
    match e
    case Wrote(_, req, h, force, prepared, _, _) => Write(m, KeyOf(req), MetaOf(req), h, force, prepared)
    case Removed(_, k, _) => m - {k}
    case Dropped(_, c, _) => map k | k in m && k.collection != c :: m[k]
  }

  function Replay(log: seq<Event>): Documents {
    if log == [] then map[] else Apply(Replay(log[..|log| - 1]), log[|log| - 1])
  }

  // The keys an operation changes, decided against the documents as they are.
  function ChangedKeys(m: Documents, e: Event): set<Key> {
    match e
    case Wrote(_, req, h, force, _, _, _) =>
      if Decide(m, KeyOf(req), MetaOf(req), h, force).Noop? then {} else {KeyOf(req)}
    case Removed(_, k, _) => m.Keys * {k}
    case Dropped(_, c, _) => set k | k in m && k.collection == c
  }

  // An event is honest about a state: it lists exactly the keys it changes, and the statistics
  // it returns describe the document right after it.
  predicate Honest(m: Documents, e: Event) {
    && e.changed == ChangedKeys(m, e)
    && (e.Wrote? ==>
          var after := Apply(m, e);
          && KeyOf(e.req) in after
          && e.stats == Stats(KeyOf(e.req), after[KeyOf(e.req)].contentHash, after[KeyOf(e.req)].chunkCount)
          && after[KeyOf(e.req)].chunkCount > 0
          && after[KeyOf(e.req)].contentHash == e.contentHash
          && after[KeyOf(e.req)].meta == MetaOf(e.req))
  }

  predicate HonestLog(log: seq<Event>) {
    forall i | 0 <= i < |log| :: Honest(Replay(log[..i]), log[i])
  }

  predicate AgreeAt(m: Documents, n: Documents, k: Key) {
    (k in m <==> k in n) && (k in m ==> m[k] == n[k])
  }

  // No event of log[lo..hi] changes k.
  predicate Quiet(log: seq<Event>, lo: nat, hi: nat, k: Key)
    requires lo <= hi <= |log|
  {
    forall i | lo <= i < hi :: k !in log[i].changed
  }

  lemma ApplyOutsideChanged(m: Documents, e: Event, k: Key)
    requires Honest(m, e) && k !in e.changed
    ensures AgreeAt(m, Apply(m, e), k)
  {}

  lemma ReplayExtend(log: seq<Event>, e: Event)
    ensures Replay(log + [e]) == Apply(Replay(log), e)
    ensures HonestLog(log) && Honest(Replay(log), e) ==> HonestLog(log + [e])
  {
    var l := log + [e];
    assert l[..|log|] == log;
    assert forall i | 0 <= i < |log| :: l[..i] == log[..i];
  }

  // A document is unchanged across a stretch of history that never lists its key.
  lemma {:induction false} QuietKeepsDocument(log: seq<Event>, lo: nat, hi: nat, k: Key)
    requires lo <= hi <= |log| && HonestLog(log) && Quiet(log, lo, hi, k)
    ensures AgreeAt(Replay(log[..lo]), Replay(log[..hi]), k)
    decreases hi
  {
    if lo < hi {
      QuietKeepsDocument(log, lo, hi - 1, k);
      assert log[..hi][..hi - 1] == log[..hi - 1];
      assert Replay(log[..hi]) == Apply(Replay(log[..hi - 1]), log[hi - 1]);
      ApplyOutsideChanged(Replay(log[..hi - 1]), log[hi - 1], k);
    }
  }

  lemma ReplayStep(log: seq<Event>, i: nat)
    requires i < |log|
    ensures Replay(log[..i + 1]) == Apply(Replay(log[..i]), log[i])
  {
    assert log[..i + 1][..i] == log[..i];
  }
}
