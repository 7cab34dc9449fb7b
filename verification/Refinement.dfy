/** Over successful calls the Secrets behave like a plain map from keys to releases. */
module Refinement {
  import opened Wrappers
  import opened SecretApi
  import opened Releases
  import opened Labels
  import opened Chunking
  import opened Protocol
  import opened Safety
  import opened Reads
  import opened Interleaving
  import opened SingleCall
  import opened Results

  /** The chunks that have Secrets of their own. */
  function ExtraChunks(env: Env, key: string, r: Release): seq<Chunk> {
    if ReleasePieces(env, r) == [] then [] else ReleaseChunks(env, key, r)[1..]
  }

  function ExtraNames(env: Env, key: string, r: Release): set<string> {
    ChunkNames(ExtraChunks(env, key, r), |ExtraChunks(env, key, r)|)
  }

  /** The release is stored whole: the index, and every other chunk, owned by that index. */
  ghost predicate Stored(env: Env, s: Store, key: string, r: Release) {
    && key in s.secrets && IndexFor(env, key, r, s.secrets[key])
    && forall i :: 0 <= i < |ExtraChunks(env, key, r)| ==>
         var ch := ExtraChunks(env, key, r)[i];
         ch.name in s.secrets && ChunkFor(env, s.secrets[ch.name], s.secrets[key], ch)
  }

  ghost predicate Explained(env: Env, m: map<string, Release>, n: string) {
    n in m || (ChunkShaped(n) && KeyOf(n) in m && n in ExtraNames(env, KeyOf(n), m[KeyOf(n)]))
  }

  ghost predicate StoresAll(env: Env, s: Store, m: map<string, Release>) {
    forall k :: k in m ==> !ChunkShaped(k) && Stored(env, s, k, m[k])
  }

  ghost predicate AllExplained(env: Env, s: Store, m: map<string, Release>) {
    forall n :: n in s.secrets ==> Explained(env, m, n)
  }

  /** The store holds exactly the releases of the map, and nothing else. */
  ghost predicate Represents(env: Env, s: Store, m: map<string, Release>) {
    WellNamed(s) && StoresAll(env, s, m) && AllExplained(env, s, m)
  }

  lemma ExtraNameShape(env: Env, key: string, r: Release, n: string)
    requires HashOk(env) && n in ExtraNames(env, key, r)
    ensures ChunkShaped(n) && KeyOf(n) == key && n != key
  {
    var i :| 0 <= i < |ExtraChunks(env, key, r)| && ExtraChunks(env, key, r)[i].name == n;
    ChunkNameShape(env, key, ExtraChunks(env, key, r)[i].data);
  }

  /* ---------- Reading ---------- */

  lemma StoredPiece(env: Env, s: Store, key: string, r: Release, i: nat)
    requires Stored(env, s, key, r) && 1 <= i < |ReleasePieces(env, r)|
    ensures var n := ReleaseChunks(env, key, r)[i].name;
            n in s.secrets && s.secrets[n].data == map["chunk" := ReleasePieces(env, r)[i]]
  {
    var ch := ExtraChunks(env, key, r)[i - 1];
    assert ch == ReleaseChunks(env, key, r)[i];
  }

  lemma {:induction false} FetchDelivers(s: Store, names: seq<string>, pieces: seq<Bytes>, i: nat)
    requires |names| == |pieces| && i <= |names|
    requires forall j :: i <= j < |names| ==>
               names[j] in s.secrets && s.secrets[names[j]].data == map["chunk" := pieces[j]]
    ensures Join(pieces[..i]) + Fetch(s, names[i..]) == Join(pieces)
    decreases |names| - i
  {
    if i == |names| {
      assert pieces[..i] == pieces && names[i..] == [];
    } else {
      FetchDelivers(s, names, pieces, i + 1);
      assert names[i..][1..] == names[i + 1..];
      assert Fetch(s, names[i..]) == pieces[i] + Fetch(s, names[i + 1..]);
      JoinNext(pieces, i);
    }
  }

  /** Fetching the chunks of a release that is stored whole delivers all of its pieces. */
  lemma FetchesAll(env: Env, s: Store, key: string, r: Release)
    requires Stored(env, s, key, r)
    ensures Join(ReleasePieces(env, r)[..1])
        + Fetch(s, NamesOf(ReleaseChunks(env, key, r))[1..]) == Join(ReleasePieces(env, r))
  {
    var pieces, names := ReleasePieces(env, r), NamesOf(ReleaseChunks(env, key, r));
    forall j | 1 <= j < |names|
      ensures names[j] in s.secrets && s.secrets[names[j]].data == map["chunk" := pieces[j]]
    {
      StoredPiece(env, s, key, r, j);
    }
    FetchDelivers(s, names, pieces, 1);
  }

  predicate WithinReadLimit(env: Env, r: Release) {
    env.maxReadChunks > 0 ==> |ReleasePieces(env, r)| <= env.maxReadChunks
  }

  /** The limits on chunks are limits on the length of the encoding. */
  lemma LimitsInBytes(env: Env, r: Release)
    requires env.enc(r).Some?
    ensures WithinReadLimit(env, r) <==>
              env.maxReadChunks <= 0 || |env.enc(r).value| <= env.maxReadChunks * env.chunkSize
    ensures TooLargeToWrite(env, r) <==>
              env.maxWriteChunks > 0 && |env.enc(r).value| > env.maxWriteChunks * env.chunkSize
  {
    var n, size := |ReleasePieces(env, r)|, |env.enc(r).value|;
    PiecesShape(env.enc(r).value, env.chunkSize);
    if env.maxReadChunks > 0 {
      CountIffLength(n, env.maxReadChunks, env.chunkSize, size);
    }
    if env.maxWriteChunks > 0 {
      CountIffLength(n, env.maxWriteChunks, env.chunkSize, size);
    }
  }

  lemma CountIffLength(n: nat, most: nat, size: Positive, length: nat)
    requires length <= n * size < length + size
    ensures n <= most <==> length <= most * size
  {
    if n <= most {
      Times(n, most, size);
    } else {
      Times(most + 1, n, size);
    }
  }

  lemma Times(a: nat, b: nat, c: nat)
    requires a <= b
    ensures a * c <= b * c
  {
  }

  /** A release that is stored whole is what a read returns, unless it has more chunks than may be read. */
  lemma StoredReadsBack(env: Env, s: Store, key: string, r: Release)
    requires CodecOk(env) && Stored(env, s, key, r)
    ensures ReadBack(env, s, key) == if WithinReadLimit(env, r) then Got(Stripped(r)) else Err(ReadFailed)
    ensures WithinReadLimit(env, r) ==> ReadAs(r, ReadBack(env, s, key).rls)
  {
    ReadAsIff(r, Stripped(r));
    var pieces := ReleasePieces(env, r);
    IndexNames(env, key, r, s.secrets[key]);
    FetchesAll(env, s, key, r);
    assert pieces[..1] == [pieces[0]];
    JoinOne(pieces[0]);
    PiecesJoin(env.enc(r).value, env.chunkSize);
  }

  /* ---------- The Secrets of a store that represents a map ---------- */

  /** An index of a key in the map, or a chunk owned by one. */
  lemma SecretOfStored(env: Env, s: Store, m: map<string, Release>, n: string)
    requires HashOk(env) && Represents(env, s, m) && n in s.secrets
    ensures var x := s.secrets[n];
            && Has(x.labels, "owner", env.owner)
            && (n in m ==> !ChunkShaped(n) && x.typ == ChunkedIndex && x.owner.None?
                           && Has(x.labels, "key", n) && Has(x.labels, "type", "index"))
            && (n !in m ==>
                  && ChunkShaped(n) && KeyOf(n) in m && KeyOf(n) in s.secrets
                  && x.typ == ChunkedChunk && "extraChunks" !in x.data
                  && x.owner == Some(OwnerRef(KeyOf(n), s.secrets[KeyOf(n)].uid))
                  && Has(x.labels, "key", KeyOf(n)) && Has(x.labels, "type", "chunk"))
  {
    assert Explained(env, m, n);
    if n in m {
      assert IndexFor(env, n, m[n], s.secrets[n]);
    } else {
      var k := KeyOf(n);
      var i :| 0 <= i < |ExtraChunks(env, k, m[k])| && ExtraChunks(env, k, m[k])[i].name == n;
      assert Stored(env, s, k, m[k]);
      assert ChunkFor(env, s.secrets[n], s.secrets[k], ExtraChunks(env, k, m[k])[i]);
    }
  }

  /** Which Secrets the two key-scoped selectors pick. */
  lemma SelectedOfStored(env: Env, s: Store, m: map<string, Release>, key: string, n: string)
    requires HashOk(env) && Represents(env, s, m) && n in s.secrets && !ChunkShaped(key)
    ensures n in Selected(s, AllForKeySelector(env.owner, key)) <==> BelongsTo(n, key)
    ensures n in Selected(s, ChunksForKeySelector(env.owner, key)) <==> BelongsTo(n, key) && n != key
  {
    SecretOfStored(env, s, m, n);
    SelectorMeaning(env.owner, key, s.secrets[n].labels);
  }

  /** A store that represents a map is well formed. */
  lemma RepresentsOk(env: Env, s: Store, m: map<string, Release>)
    requires HashOk(env) && Represents(env, s, m)
    ensures StoreOk(env, m.Values, s)
  {
    forall n | n in s.secrets
      ensures SecretOk(env, m.Values, n, s.secrets[n])
    {
      assert Explained(env, m, n);
      if n in m {
        assert Stored(env, s, n, m[n]);
      } else {
        OwnedChunkOk(env, s, m, n);
      }
    }
  }

  lemma OwnedChunkOk(env: Env, s: Store, m: map<string, Release>, n: string)
    requires HashOk(env) && Represents(env, s, m) && n in s.secrets && n !in m
    ensures ChunkShaped(n) && ChunkOk(env, m.Values, n, s.secrets[n])
  {
    assert Explained(env, m, n);
    var k := KeyOf(n);
    var i :| 0 <= i < |ExtraChunks(env, k, m[k])| && ExtraChunks(env, k, m[k])[i].name == n;
    var ch := ExtraChunks(env, k, m[k])[i];
    assert Stored(env, s, k, m[k]) && ChunkFor(env, s.secrets[n], s.secrets[k], ch);
    ExtraChunkOk(env, m.Values, k, m[k], i, s.secrets[n]);
  }

  lemma ExtraChunkOk(env: Env, U: set<Release>, key: string, r: Release, i: nat, x: Secret)
    requires HashOk(env) && r in U && !ChunkShaped(key) && i < |ExtraChunks(env, key, r)|
    requires var ch := ExtraChunks(env, key, r)[i];
             && x.name == ch.name && x.typ == ChunkedChunk && x.immutable && x.data == map["chunk" := ch.data]
             && Has(x.labels, "owner", env.owner) && Has(x.labels, "key", key) && Has(x.labels, "type", "chunk")
    ensures ChunkShaped(x.name) && ChunkOk(env, U, x.name, x)
  {
    var ch := ExtraChunks(env, key, r)[i];
    ChunkNameShape(env, key, ch.data);
    assert ch.data == ReleasePieces(env, r)[i + 1] && ch.data in AllPieces(env, U);
  }

  lemma KeysOfMap(env: Env, s: Store, m: map<string, Release>, key: string)
    requires Represents(env, s, m) && !ChunkShaped(key)
    ensures key in s.secrets <==> key in m
  {
    if key in s.secrets {
      assert Explained(env, m, key);
    }
  }

  /** Only Secrets that belong to `key` differ. */
  ghost predicate OnlyTouches(s: Store, s': Store, key: string) {
    && (forall n :: n in s.secrets && !BelongsTo(n, key) ==> n in s'.secrets && s'.secrets[n] == s.secrets[n])
    && (forall n :: n in s'.secrets && !BelongsTo(n, key) ==> n in s.secrets)
  }

  /** A release stays stored as long as its own Secrets stay. */
  lemma StillStored(env: Env, s: Store, s': Store, touched: string, key: string, r: Release)
    requires HashOk(env) && Stored(env, s, key, r) && OnlyTouches(s, s', touched) && key != touched
    requires !ChunkShaped(key) && !ChunkShaped(touched)
    ensures Stored(env, s', key, r)
  {
    forall i | 0 <= i < |ExtraChunks(env, key, r)|
      ensures var ch := ExtraChunks(env, key, r)[i];
              ch.name in s'.secrets && ChunkFor(env, s'.secrets[ch.name], s'.secrets[key], ch)
    {
      var ch := ExtraChunks(env, key, r)[i];
      ExtraNameShape(env, key, r, ch.name);
      assert !BelongsTo(ch.name, touched);
    }
  }

  lemma PutStoresAll(env: Env, s: Store, m: map<string, Release>, s': Store, key: string, r: Release)
    requires HashOk(env) && StoresAll(env, s, m) && !ChunkShaped(key) && OnlyTouches(s, s', key)
    requires Stored(env, s', key, r)
    ensures StoresAll(env, s', m[key := r])
  {
    forall k | k in m[key := r]
      ensures !ChunkShaped(k) && Stored(env, s', k, m[key := r][k])
    {
      if k != key {
        StillStored(env, s, s', key, k, m[k]);
        assert Stored(env, s', k, m[k]);
      }
    }
  }

  lemma PutExplained(env: Env, s: Store, m: map<string, Release>, s': Store, key: string, r: Release)
    requires HashOk(env) && AllExplained(env, s, m) && !ChunkShaped(key) && OnlyTouches(s, s', key)
    requires forall n :: n in s'.secrets && BelongsTo(n, key) ==> n == key || n in ExtraNames(env, key, r)
    ensures AllExplained(env, s', m[key := r])
  {
    forall n | n in s'.secrets
      ensures Explained(env, m[key := r], n)
    {
      if !BelongsTo(n, key) {
        assert Explained(env, m, n);
      } else if n != key {
        ExtraNameShape(env, key, r, n);
      }
    }
  }

  /** Replacing everything that belongs to one key by a release that is stored whole. */
  lemma PutRefines(env: Env, s: Store, m: map<string, Release>, s': Store, key: string, r: Release)
    requires HashOk(env) && Represents(env, s, m) && !ChunkShaped(key)
    requires WellNamed(s') && OnlyTouches(s, s', key) && Stored(env, s', key, r)
    requires forall n :: n in s'.secrets && BelongsTo(n, key) ==> n == key || n in ExtraNames(env, key, r)
    ensures Represents(env, s', m[key := r])
  {
    PutStoresAll(env, s, m, s', key, r);
    PutExplained(env, s, m, s', key, r);
  }

  lemma RemovedStoresAll(env: Env, s: Store, m: map<string, Release>, s': Store, key: string)
    requires HashOk(env) && StoresAll(env, s, m) && !ChunkShaped(key) && OnlyTouches(s, s', key)
    ensures StoresAll(env, s', m - {key})
  {
    forall k | k in m - {key}
      ensures !ChunkShaped(k) && Stored(env, s', k, (m - {key})[k])
    {
      StillStored(env, s, s', key, k, m[k]);
    }
  }

  /* ---------- Create ---------- */

  lemma CreatedStores(env: Env, s: Store, key: string, r: Release, now: int)
    requires CanCreate(env, s, key, r, now)
    ensures Stored(env, CreatedStore(env, s, key, r, now), key, r)
  {
    var index, t, all := CreatedIndex(env, s, key, r, now), WithIndex(env, s, key, r, now), ExtraChunks(env, key, r);
    IndexSecretFor(env, key, r, Itoa(now), None);
    IndexForIgnoresUid(env, key, r, index.(uid := 0), s.nextUid);
    WrittenStores(env, t, key, r, index, Some(Itoa(now)));
  }

  /** Writing all chunks after the index leaves the release stored whole. */
  lemma WrittenStores(env: Env, t: Store, key: string, r: Release, index: Secret, at: Option<string>)
    requires ReleasePieces(env, r) != [] && key in t.secrets && t.secrets[key] == index && IndexFor(env, key, r, index)
    requires AllFresh(t, ExtraChunks(env, key, r))
    ensures Stored(env, AddAll(env, t, index, ExtraChunks(env, key, r), at), key, r)
  {
    var all := ExtraChunks(env, key, r);
    var s' := AddAll(env, t, index, all, at);
    AddedKeepsOthers(env, t, index, all, |all|, at);
    forall i | 0 <= i < |all|
      ensures all[i].name in s'.secrets && ChunkFor(env, s'.secrets[all[i].name], s'.secrets[key], all[i])
    {
      AddedChunk(env, t, index, all, |all|, at, i);
    }
  }

  lemma ExtraNamesBelong(env: Env, key: string, r: Release)
    requires HashOk(env)
    ensures forall n :: n in ExtraNames(env, key, r) ==> BelongsTo(n, key) && n != key
  {
    forall n | n in ExtraNames(env, key, r)
      ensures BelongsTo(n, key) && n != key
    {
      ExtraNameShape(env, key, r, n);
    }
  }

  /** Adding the release's chunks touches only Secrets that belong to its key. */
  lemma AddTouches(env: Env, t: Store, key: string, r: Release, index: Secret, at: Option<string>)
    requires HashOk(env) && WellNamed(t) && AllFresh(t, ExtraChunks(env, key, r))
    ensures var s' := AddAll(env, t, index, ExtraChunks(env, key, r), at);
            && WellNamed(s') && OnlyTouches(t, s', key)
            && s'.secrets.Keys == t.secrets.Keys + ExtraNames(env, key, r)
  {
    var all := ExtraChunks(env, key, r);
    AddedKeys(env, t, index, all, |all|, at);
    AddedKeepsOthers(env, t, index, all, |all|, at);
    ExtraNamesBelong(env, key, r);
  }

  lemma TouchesTwice(s: Store, t: Store, u: Store, key: string)
    requires OnlyTouches(s, t, key) && OnlyTouches(t, u, key)
    ensures OnlyTouches(s, u, key)
  {
  }

  /** While the map does not have the key, no Secret belongs to it. */
  lemma NothingBelongsYet(env: Env, s: Store, m: map<string, Release>, key: string)
    requires HashOk(env) && Represents(env, s, m) && !ChunkShaped(key) && key !in s.secrets
    ensures key !in m && forall n :: n in s.secrets ==> !BelongsTo(n, key)
  {
    KeysOfMap(env, s, m, key);
    forall n | n in s.secrets
      ensures !BelongsTo(n, key)
    {
      assert Explained(env, m, n);
    }
  }

  lemma CreateRefines(env: Env, s: Store, m: map<string, Release>, key: string, r: Release, now: int)
    requires HashOk(env) && Represents(env, s, m) && !ChunkShaped(key) && CanCreate(env, s, key, r, now)
    ensures key !in m && Represents(env, CreatedStore(env, s, key, r, now), m[key := r])
  {
    var t, s' := WithIndex(env, s, key, r, now), CreatedStore(env, s, key, r, now);
    CreatedStores(env, s, key, r, now);
    AddTouches(env, t, key, r, CreatedIndex(env, s, key, r, now), Some(Itoa(now)));
    assert OnlyTouches(s, t, key);
    TouchesTwice(s, t, s', key);
    NothingBelongsYet(env, s, m, key);
    PutRefines(env, s, m, s', key, r);
  }

  /* ---------- Update ---------- */

  lemma UpdatedIndexFor(env: Env, s: Store, key: string, r: Release, now: int)
    requires ReleasePieces(env, r) != [] && key in s.secrets
    ensures IndexFor(env, key, r, UpdatedIndex(env, s, key, r, now))
  {
    IndexSecretFor(env, key, r, LabelOrEmpty(s.secrets[key], "createdAt"), Some(Itoa(now)));
    IndexForIgnoresUid(env, key, r, UpdatedIndex(env, s, key, r, now).(uid := 0), s.secrets[key].uid);
  }

  lemma LabelledIsListed(env: Env, s: Store, key: string, r: Release, now: int, n: string)
    requires HashOk(env) && key in s.secrets && CanUpdate(env, s, key, r, now)
    requires n in UpdatedStore(env, s, key, r, now).secrets
    ensures Matches(ChunksForKeySelector(env.owner, key), UpdatedStore(env, s, key, r, now).secrets[n].labels) <==>
            n in ExtraNames(env, key, r)
  {
    var s', t := UpdatedStore(env, s, key, r, now), WithNewIndex(env, s, key, r, now);
    var index, all := UpdatedIndex(env, s, key, r, now), ExtraChunks(env, key, r);
    SelectorMeaning(env.owner, key, s'.secrets[n].labels);
    AddedKeepsOthers(env, t, index, all, |all|, None);
    if n in ExtraNames(env, key, r) {
      var i :| 0 <= i < |all| && all[i].name == n;
      AddedChunk(env, t, index, all, |all|, None, i);
    } else {
      AddedKeys(env, t, index, all, |all|, None);
      if n == key {
        UpdatedIndexFor(env, s, key, r, now);
      } else {
        assert n in WithoutChunks(env, s, key).secrets && n !in Selected(s, ChunksForKeySelector(env.owner, key));
      }
    }
  }

  /** Update heals.  Whatever the store held under the key before, chunks missing or left over, a successful
      Update leaves the new release stored whole, and no other chunk Secret labelled with the key. */
  lemma UpdateHeals(env: Env, s: Store, key: string, r: Release, now: int)
    requires HashOk(env) && key in s.secrets && CanUpdate(env, s, key, r, now)
    ensures var s' := UpdatedStore(env, s, key, r, now);
            && Stored(env, s', key, r)
            && Selected(s', ChunksForKeySelector(env.owner, key)) == ExtraNames(env, key, r)
            && s'.secrets[key].uid == s.secrets[key].uid
            && LabelOrEmpty(s'.secrets[key], "createdAt") == LabelOrEmpty(s.secrets[key], "createdAt")
  {
    var s', t := UpdatedStore(env, s, key, r, now), WithNewIndex(env, s, key, r, now);
    var index := UpdatedIndex(env, s, key, r, now);
    var all := ExtraChunks(env, key, r);
    UpdatedIndexFor(env, s, key, r, now);
    WrittenStores(env, t, key, r, index, None);
    AddedKeepsOthers(env, t, index, all, |all|, None);
    forall n | n in s'.secrets
      ensures Matches(ChunksForKeySelector(env.owner, key), s'.secrets[n].labels) <==> n in ExtraNames(env, key, r)
    {
      LabelledIsListed(env, s, key, r, now, n);
    }
    AddedKeys(env, t, index, all, |all|, None);
  }

  /* ---------- Labels ---------- */

  /** What the Secrets of a successful Create are labelled with, in full. */
  lemma CreatedLabels(env: Env, s: Store, key: string, r: Release, now: int)
    requires HashOk(env) && CanCreate(env, s, key, r, now)
    ensures var s', t := CreatedStore(env, s, key, r, now), Itoa(now);
            && key in s'.secrets && ExtraNames(env, key, r) <= s'.secrets.Keys
            && s'.secrets[key].labels ==
                 map["name" := r.name, "owner" := env.owner, "status" := r.status, "version" := Itoa(r.version),
                     "key" := key, "type" := "index", "createdAt" := t]
            && forall n :: n in ExtraNames(env, key, r) ==>
                 s'.secrets[n].labels == map["owner" := env.owner, "key" := key, "type" := "chunk", "createdAt" := t]
  {
    var t, s', all := WithIndex(env, s, key, r, now), CreatedStore(env, s, key, r, now), ExtraChunks(env, key, r);
    AddedKeepsOthers(env, t, CreatedIndex(env, s, key, r, now), all, |all|, Some(Itoa(now)));
    forall n | n in ExtraNames(env, key, r)
      ensures n in s'.secrets
      ensures s'.secrets[n].labels ==
                map["owner" := env.owner, "key" := key, "type" := "chunk", "createdAt" := Itoa(now)]
    {
      var i :| 0 <= i < |all| && all[i].name == n;
      AddedChunk(env, t, CreatedIndex(env, s, key, r, now), all, |all|, Some(Itoa(now)), i);
    }
  }

  /** What the Secrets of a successful Update are labelled with.  The new chunks carry no time. */
  lemma UpdatedLabels(env: Env, s: Store, key: string, r: Release, now: int)
    requires HashOk(env) && key in s.secrets && CanUpdate(env, s, key, r, now)
    ensures var s' := UpdatedStore(env, s, key, r, now);
            && key in s'.secrets && ExtraNames(env, key, r) <= s'.secrets.Keys
            && s'.secrets[key].labels ==
                 map["name" := r.name, "owner" := env.owner, "status" := r.status, "version" := Itoa(r.version),
                     "key" := key, "type" := "index", "createdAt" := LabelOrEmpty(s.secrets[key], "createdAt"),
                     "modifiedAt" := Itoa(now)]
            && forall n :: n in ExtraNames(env, key, r) ==>
                 s'.secrets[n].labels == map["owner" := env.owner, "key" := key, "type" := "chunk"]
  {
    var t, s', all := WithNewIndex(env, s, key, r, now), UpdatedStore(env, s, key, r, now), ExtraChunks(env, key, r);
    AddedKeepsOthers(env, t, UpdatedIndex(env, s, key, r, now), all, |all|, None);
    forall n | n in ExtraNames(env, key, r)
      ensures n in s'.secrets && s'.secrets[n].labels == map["owner" := env.owner, "key" := key, "type" := "chunk"]
    {
      var i :| 0 <= i < |all| && all[i].name == n;
      AddedChunk(env, t, UpdatedIndex(env, s, key, r, now), all, |all|, None, i);
    }
  }

  /** Update's first delete removes exactly the chunks of its key. */
  lemma DropTouches(env: Env, s: Store, m: map<string, Release>, key: string)
    requires HashOk(env) && Represents(env, s, m) && !ChunkShaped(key)
    ensures var t := WithoutChunks(env, s, key);
            && WellNamed(t) && OnlyTouches(s, t, key)
            && forall n :: n in t.secrets && BelongsTo(n, key) ==> n == key
  {
    forall n | n in s.secrets
      ensures n in WithoutChunks(env, s, key).secrets <==> !BelongsTo(n, key) || n == key
    {
      SelectedOfStored(env, s, m, key, n);
    }
  }

  lemma UpdateTouches(env: Env, s: Store, m: map<string, Release>, key: string, r: Release, now: int)
    requires HashOk(env) && Represents(env, s, m) && !ChunkShaped(key) && key in s.secrets
    requires CanUpdate(env, s, key, r, now)
    ensures var s' := UpdatedStore(env, s, key, r, now);
            && WellNamed(s') && OnlyTouches(s, s', key)
            && forall n :: n in s'.secrets && BelongsTo(n, key) ==> n == key || n in ExtraNames(env, key, r)
  {
    var d, t := WithoutChunks(env, s, key), WithNewIndex(env, s, key, r, now);
    DropTouches(env, s, m, key);
    assert WellNamed(t) && OnlyTouches(d, t, key);
    TouchesTwice(s, d, t, key);
    AddTouches(env, t, key, r, UpdatedIndex(env, s, key, r, now), None);
    TouchesTwice(s, t, UpdatedStore(env, s, key, r, now), key);
  }

  lemma UpdateRefines(env: Env, s: Store, m: map<string, Release>, key: string, r: Release, now: int)
    requires HashOk(env) && Represents(env, s, m) && key in s.secrets && CanUpdate(env, s, key, r, now)
    ensures key in m && Represents(env, UpdatedStore(env, s, key, r, now), m[key := r])
  {
    SecretOfStored(env, s, m, key);
    UpdateTouches(env, s, m, key, r, now);
    UpdateHeals(env, s, key, r, now);
    PutRefines(env, s, m, UpdatedStore(env, s, key, r, now), key, r);
  }

  /* ---------- Delete ---------- */

  lemma RemovedExplained(env: Env, s: Store, m: map<string, Release>, s': Store, key: string)
    requires AllExplained(env, s, m) && forall n :: n in s'.secrets ==> n in s.secrets && !BelongsTo(n, key)
    ensures AllExplained(env, s', m - {key})
  {
    forall n | n in s'.secrets
      ensures Explained(env, m - {key}, n)
    {
      assert Explained(env, m, n);
    }
  }

  lemma DeleteRefines(env: Env, s: Store, m: map<string, Release>, key: string)
    requires HashOk(env) && Represents(env, s, m) && key in m
    ensures Represents(env, WithoutKey(env, s, key), m - {key})
  {
    var s' := WithoutKey(env, s, key);
    forall n | n in s.secrets
      ensures n in s'.secrets <==> !BelongsTo(n, key)
    {
      SelectedOfStored(env, s, m, key, n);
    }
    RemovedStoresAll(env, s, m, s', key);
    RemovedExplained(env, s, m, s', key);
  }

  /* ---------- All calls ---------- */

  /** Outcomes that say something about the key's presence. */
  predicate Conclusive(o: Outcome) {
    o.Written? || o.Got? || o == Err(ReleaseExists) || o == Err(ReleaseNotFound)
  }

  /** How a plain map of releases would answer. */
  ghost predicate MapAnswers(m: map<string, Release>, op: Op, o: Outcome, m': map<string, Release>) {
    match op
    case Create(k, r, _) =>
      if k in m then o == Err(ReleaseExists) && m' == m else o == Written && m' == m[k := r]
    case Update(k, r, _) =>
      if k in m then o == Written && m' == m[k := r] else o == Err(ReleaseNotFound) && m' == m
    case Get(k) =>
      m' == m && if k in m then o.Got? && ReadAs(m[k], o.rls) else o == Err(ReleaseNotFound)
    case Delete(k) =>
      if k in m then o.Got? && ReadAs(m[k], o.rls) && m' == m - {k} else o == Err(ReleaseNotFound) && m' == m
  }

  function MapAfter(m: map<string, Release>, op: Op): map<string, Release> {
    match op
    case Create(k, r, _) => if k in m then m else m[k := r]
    case Update(k, r, _) => if k in m then m[k := r] else m
    case Get(_) => m
    case Delete(k) => m - {k}
  }

  lemma ReadOfMap(env: Env, s: Store, m: map<string, Release>, key: string, o: Outcome)
    requires EnvOk(env) && Represents(env, s, m) && o == ReadBack(env, s, key)
    ensures o.Got? ==> key in m && ReadAs(m[key], o.rls)
    ensures o == Err(ReleaseNotFound) <==> key !in s.secrets
    ensures key !in s.secrets ==> key !in m
  {
    if key in s.secrets {
      SecretOfStored(env, s, m, key);
    }
    if key in m {
      StoredReadsBack(env, s, key, m[key]);
    }
  }

  /** A finished call on a store that represents the map, with a conclusive result. */
  ghost predicate ConclusiveRun(env: Env, s: Store, m: map<string, Release>, op: Op, run: seq<Conf>) {
    && Represents(env, s, m) && (op.Create? ==> !ChunkShaped(op.key))
    && OpRun(env, false, s, op, run) && Last(run).proc.Finished? && Conclusive(Last(run).proc.outcome)
  }

  lemma CreateRefinesMap(env: Env, s: Store, m: map<string, Release>, op: Op, run: seq<Conf>)
    requires EnvOk(env) && ConclusiveRun(env, s, m, op, run) && op.Create?
    ensures MapAnswers(m, op, Last(run).proc.outcome, MapAfter(m, op))
    ensures Represents(env, Last(run).store, MapAfter(m, op))
  {
    CreateResult(env, false, s, op.key, op.rls, op.now, run);
    KeysOfMap(env, s, m, op.key);
    if Last(run).proc.outcome == Written {
      CreateRefines(env, s, m, op.key, op.rls, op.now);
    }
  }

  lemma UpdateRefinesMap(env: Env, s: Store, m: map<string, Release>, op: Op, run: seq<Conf>)
    requires EnvOk(env) && ConclusiveRun(env, s, m, op, run) && op.Update?
    ensures MapAnswers(m, op, Last(run).proc.outcome, MapAfter(m, op))
    ensures Represents(env, Last(run).store, MapAfter(m, op))
  {
    UpdateResult(env, false, s, op.key, op.rls, op.now, run);
    if Last(run).proc.outcome == Written {
      UpdateRefines(env, s, m, op.key, op.rls, op.now);
    }
  }

  lemma GetRefinesMap(env: Env, s: Store, m: map<string, Release>, op: Op, run: seq<Conf>)
    requires EnvOk(env) && ConclusiveRun(env, s, m, op, run) && op.Get?
    ensures MapAnswers(m, op, Last(run).proc.outcome, MapAfter(m, op))
    ensures Represents(env, Last(run).store, MapAfter(m, op))
  {
    GetReadsBack(env, false, run, op.key);
    ReadOfMap(env, s, m, op.key, Last(run).proc.outcome);
  }

  lemma DeleteRefinesMap(env: Env, s: Store, m: map<string, Release>, op: Op, run: seq<Conf>)
    requires EnvOk(env) && ConclusiveRun(env, s, m, op, run) && op.Delete?
    ensures MapAnswers(m, op, Last(run).proc.outcome, MapAfter(m, op))
    ensures Represents(env, Last(run).store, MapAfter(m, op))
  {
    var o := Last(run).proc.outcome;
    DeleteRun(env, false, s, op.key, run);
    ReadOfMap(env, s, m, op.key, ReadBack(env, s, op.key));
    if o.Got? {
      DeleteRefines(env, s, m, op.key);
    } else {
      assert o == Err(ReleaseNotFound) && m - {op.key} == m;
    }
  }

  /** One call: if its result is conclusive, the map gives the same answer, and the store goes on to represent
      the map.  Nothing is assumed of the hash: when names collide, the write fails. */
  lemma CallRefinesMap(env: Env, s: Store, m: map<string, Release>, op: Op, run: seq<Conf>)
    requires EnvOk(env) && ConclusiveRun(env, s, m, op, run)
    ensures MapAnswers(m, op, Last(run).proc.outcome, MapAfter(m, op))
    ensures Represents(env, Last(run).store, MapAfter(m, op))
  {
    match op
    case Create(_, _, _) => CreateRefinesMap(env, s, m, op, run);
    case Update(_, _, _) => UpdateRefinesMap(env, s, m, op, run);
    case Get(_) => GetRefinesMap(env, s, m, op, run);
    case Delete(_) => DeleteRefinesMap(env, s, m, op, run);
  }

  function MapAfterAll(m: map<string, Release>, ops: seq<Op>): map<string, Release> {
    if ops == [] then m else MapAfter(MapAfterAll(m, ops[..|ops| - 1]), ops[|ops| - 1])
  }

  /** Calls one after the other, each with a conclusive result. */
  ghost predicate Session(env: Env, stores: seq<Store>, ops: seq<Op>, runs: seq<seq<Conf>>) {
    && |stores| == |ops| + 1 && |runs| == |ops|
    && forall i :: 0 <= i < |ops| ==>
         && (ops[i].Create? ==> !ChunkShaped(ops[i].key))
         && OpRun(env, false, stores[i], ops[i], runs[i])
         && Last(runs[i]).proc.Finished? && Conclusive(Last(runs[i]).proc.outcome)
         && Last(runs[i]).store == stores[i + 1]
  }

  lemma {:induction false} SessionRepresents(env: Env, m: map<string, Release>, stores: seq<Store>, ops: seq<Op>,
                                             runs: seq<seq<Conf>>, i: nat)
    requires EnvOk(env) && Session(env, stores, ops, runs) && Represents(env, stores[0], m) && i <= |ops|
    ensures Represents(env, stores[i], MapAfterAll(m, ops[..i]))
  {
    if i == 0 {
      assert ops[..0] == [];
    } else {
      SessionRepresents(env, m, stores, ops, runs, i - 1);
      assert ops[..i][..i - 1] == ops[..i - 1] && ops[..i][i - 1] == ops[i - 1];
      CallRefinesMap(env, stores[i - 1], MapAfterAll(m, ops[..i - 1]), ops[i - 1], runs[i - 1]);
    }
  }

  lemma SessionAnswers(env: Env, m: map<string, Release>, stores: seq<Store>, ops: seq<Op>, runs: seq<seq<Conf>>,
                       i: nat)
    requires EnvOk(env) && Session(env, stores, ops, runs) && Represents(env, stores[0], m) && i < |ops|
    ensures MapAnswers(MapAfterAll(m, ops[..i]), ops[i], Last(runs[i]).proc.outcome, MapAfterAll(m, ops[..i + 1]))
  {
    SessionRepresents(env, m, stores, ops, runs, i);
    assert ops[..i + 1][..i] == ops[..i] && ops[..i + 1][i] == ops[i];
    CallRefinesMap(env, stores[i], MapAfterAll(m, ops[..i]), ops[i], runs[i]);
  }

  /** Refinement: over any sequence of calls with conclusive results, every result is the one the plain map gives,
      and the store always represents the map. */
  lemma SessionRefinesMap(env: Env, m: map<string, Release>, stores: seq<Store>, ops: seq<Op>, runs: seq<seq<Conf>>)
    requires EnvOk(env) && Session(env, stores, ops, runs) && Represents(env, stores[0], m)
    ensures Represents(env, Last(stores), MapAfterAll(m, ops))
    ensures forall i :: 0 <= i < |ops| ==>
              MapAnswers(MapAfterAll(m, ops[..i]), ops[i], Last(runs[i]).proc.outcome, MapAfterAll(m, ops[..i + 1]))
  {
    SessionRepresents(env, m, stores, ops, runs, |ops|);
    assert ops[..|ops|] == ops;
    forall i | 0 <= i < |ops|
      ensures MapAnswers(MapAfterAll(m, ops[..i]), ops[i], Last(runs[i]).proc.outcome, MapAfterAll(m, ops[..i + 1]))
    {
      SessionAnswers(env, m, stores, ops, runs, i);
    }
  }

  /* ---------- The garbage collector ---------- */

  /** A Secret whose owner is gone, or has been replaced by another Secret of the same name. */
  predicate Collectable(s: Store, n: string) {
    && n in s.secrets && s.secrets[n].owner.Some?
    && var o := s.secrets[n].owner.value;
       !(o.name in s.secrets && s.secrets[o.name].uid == o.uid)
  }

  /** In a store that represents a map there is nothing for the garbage collector to take. */
  lemma NothingToCollect(env: Env, s: Store, m: map<string, Release>, n: string)
    requires HashOk(env) && Represents(env, s, m)
    ensures !Collectable(s, n)
  {
    if n in s.secrets {
      SecretOfStored(env, s, m, n);
    }
  }
}
