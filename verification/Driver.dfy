/** The storage driver.  Every method that works on one key is proved to follow the protocol, request by request,
    from the start of its call to its result; the run it went through is a ghost result. */
module Driver {
  import opened Wrappers
  import opened SecretApi
  import opened Releases
  import opened Labels
  import opened Hashing
  import opened Chunking
  import opened Protocol
  import opened Reads
  import opened Interleaving
  import opened SingleCall
  import opened Results

  /** The configured hash is the one the shared hasher computes. */
  ghost predicate HashIsFnv(env: Env) {
    forall d {:trigger HashOf(d)} :: env.hash(d) == HashOf(d)
  }

  lemma HashIsFnvOk(env: Env)
    requires HashIsFnv(env)
    ensures HashOk(env)
  {
    forall d
      ensures IsHash(env.hash(d))
    {
      assert env.hash(d) == HashOf(d);
    }
  }

  lemma StepRun(env: Env, reliable: bool, run: seq<Conf>, next: Conf)
    requires IsRun(env, reliable, run) && Step(env, reliable, Last(run), next)
    ensures IsRun(env, reliable, run + [next]) && (run + [next])[0] == run[0] && Last(run + [next]) == next
  {
    var longer := run + [next];
    forall i | 0 <= i < |longer| - 1
      ensures Step(env, reliable, longer[i], longer[i + 1])
    {
      if i < |run| - 1 {
        assert longer[i] == run[i] && longer[i + 1] == run[i + 1];
      } else {
        assert longer[i] == Last(run) && longer[i + 1] == next;
      }
    }
  }

  /** One more answered request at the end of a run. */
  lemma ExtendRun(env: Env, reliable: bool, run: seq<Conf>, resp: Response, next: Conf)
    requires IsRun(env, reliable, run) && Answered(env, reliable, Last(run), resp, next)
    ensures IsRun(env, reliable, run + [next]) && (run + [next])[0] == run[0] && Last(run + [next]) == next
  {
    assert Step(env, reliable, Last(run), next);
    StepRun(env, reliable, run, next);
  }

  lemma StopRun(env: Env, reliable: bool, run: seq<Conf>, next: Conf)
    requires IsRun(env, reliable, run) && StopsReading(env, Last(run), next)
    ensures IsRun(env, reliable, run + [next]) && (run + [next])[0] == run[0] && Last(run + [next]) == next
  {
    assert Step(env, reliable, Last(run), next);
    StepRun(env, reliable, run, next);
  }

  /** A chunk that cannot be read ends the stream. */
  lemma MissingChunk(env: Env, reliable: bool, s: Store, names: seq<string>, acc: Bytes, resp: Response)
    requires CodecOk(env) && names != [] && Responds(reliable, s, GetSecret(names[0]), resp, s)
    requires !(resp.Found? && "chunk" in resp.secret.data)
    ensures env.dec(acc).Some? || reliable ==> env.dec(acc) == env.dec(acc + Fetch(s, names))
  {
    if env.dec(acc).Some? {
      Streaming(env, acc, Fetch(s, names));
    } else if reliable {
      assert acc + Fetch(s, names) == acc;
    }
  }

  lemma FetchNext(s: Store, acc: Bytes, names: seq<string>)
    requires names != [] && names[0] in s.secrets && "chunk" in s.secrets[names[0]].data
    ensures (acc + s.secrets[names[0]].data["chunk"]) + Fetch(s, names[1..]) == acc + Fetch(s, names)
  {
  }

  function From(data: Bytes, i: nat): Bytes {
    if i < |data| then data[i..] else []
  }

  /** The chunks of the data from `i` on. */
  function ChunksFrom(env: Env, key: string, data: Bytes, i: nat): seq<Chunk> {
    ChunksOf(env, key, Pieces(From(data, i), env.chunkSize))
  }

  lemma NextPieces(env: Env, data: Bytes, i: nat, end: nat)
    requires i < |data| && end == if i + env.chunkSize > |data| then |data| else i + env.chunkSize
    ensures Pieces(From(data, i), env.chunkSize) ==
            [data[i..end]] + Pieces(From(data, i + env.chunkSize), env.chunkSize)
  {
    var now, next := From(data, i), From(data, i + env.chunkSize);
    if |now| <= env.chunkSize {
      assert next == [] && data[i..end] == now;
    } else {
      assert now[..env.chunkSize] == data[i..end] && now[env.chunkSize..] == next;
    }
  }

  /** The data is cut up to `i`, into the chunks `done`. */
  ghost predicate CutUpTo(env: Env, key: string, data: Bytes, i: nat, done: seq<Chunk>) {
    ChunksFrom(env, key, data, 0) == done + ChunksFrom(env, key, data, i)
  }

  lemma CutStarts(env: Env, key: string, data: Bytes)
    ensures CutUpTo(env, key, data, 0, [])
  {
  }

  lemma ChunksOfNext(env: Env, key: string, piece: Bytes, rest: seq<Bytes>)
    ensures ChunksOf(env, key, [piece] + rest) ==
            [Chunk(ChunkName(env, key, piece), piece)] + ChunksOf(env, key, rest)
  {
  }

  lemma Regroup<T>(done: seq<T>, x: T, rest: seq<T>)
    ensures done + ([x] + rest) == (done + [x]) + rest
  {
  }

  /** One turn of the loop that cuts the data. */
  lemma CutGoesOn(env: Env, key: string, data: Bytes, i: nat, end: nat, done: seq<Chunk>, c: Chunk)
    requires CutUpTo(env, key, data, i, done) && i < |data|
    requires end == if i + env.chunkSize > |data| then |data| else i + env.chunkSize
    requires c == Chunk(ChunkName(env, key, data[i..end]), data[i..end])
    ensures CutUpTo(env, key, data, i + env.chunkSize, done + [c])
  {
    NextPieces(env, data, i, end);
    ChunksOfNext(env, key, data[i..end], Pieces(From(data, i + env.chunkSize), env.chunkSize));
    Regroup(done, c, ChunksFrom(env, key, data, i + env.chunkSize));
  }

  lemma CutEnds(env: Env, key: string, data: Bytes, i: nat, done: seq<Chunk>)
    requires CutUpTo(env, key, data, i, done) && i >= |data|
    ensures done == ChunksOf(env, key, Pieces(data, env.chunkSize))
  {
    assert From(data, 0) == data && ChunksFrom(env, key, data, i) == [];
  }

  /** The decoded releases of the first `n` listed index Secrets that match the selector, in their order. */
  function Kept(env: Env, s: Store, items: seq<Secret>, n: nat, sel: Selector): seq<Release>
    requires n <= |items|
  {
    if n == 0 then []
    else
      match DecodeIndex(env, s, items[n - 1])
      case None => Kept(env, s, items, n - 1, sel)
      case Some(r) => Kept(env, s, items, n - 1, sel) + (if Matches(sel, r.labels) then [r] else [])
  }

  /** List replaces a release's labels by those of its index Secret before it filters. */
  function Listed(env: Env, s: Store, items: seq<Secret>, n: nat, filter: Release -> bool): seq<Release>
    requires n <= |items|
  {
    if n == 0 then []
    else
      match DecodeIndex(env, s, items[n - 1])
      case None => Listed(env, s, items, n - 1, filter)
      case Some(r) =>
        var relabelled := r.(labels := items[n - 1].labels);
        Listed(env, s, items, n - 1, filter) + (if filter(relabelled) then [relabelled] else [])
  }

  lemma KeptNext(env: Env, s: Store, items: seq<Secret>, i: nat, sel: Selector)
    requires i < |items| && AllDecode(env, s, items, i) && DecodeIndex(env, s, items[i]).Some?
    ensures AllDecode(env, s, items, i + 1)
    ensures var r := DecodeIndex(env, s, items[i]).value;
            Kept(env, s, items, i + 1, sel) == Kept(env, s, items, i, sel)
                + (if Matches(sel, r.labels) then [r] else [])
  {
  }

  lemma ListedNext(env: Env, s: Store, items: seq<Secret>, i: nat, filter: Release -> bool)
    requires i < |items| && AllDecode(env, s, items, i) && DecodeIndex(env, s, items[i]).Some?
    ensures AllDecode(env, s, items, i + 1)
    ensures var r := DecodeIndex(env, s, items[i]).value.(labels := items[i].labels);
            Listed(env, s, items, i + 1, filter) == Listed(env, s, items, i, filter) + (if filter(r) then [r] else [])
  {
  }

  predicate AllDecode(env: Env, s: Store, items: seq<Secret>, n: nat)
    requires n <= |items|
  {
    forall i :: 0 <= i < n ==> DecodeIndex(env, s, items[i]).Some?
  }

  /** A correct answer of List, given the server's listing. */
  ghost predicate ListAnswer(env: Env, reliable: bool, s: Store, items: seq<Secret>, filter: Release -> bool,
                             result: Result<seq<Release>, Failure>) {
    match result
    case Ok(found) => AllDecode(env, s, items, |items|) && found == Listed(env, s, items, |items|, filter)
    case Error(f) => f == ReadFailed && (reliable ==> !AllDecode(env, s, items, |items|))
  }

  /** A correct answer of Query, given the server's listing. */
  ghost predicate QueryAnswer(env: Env, reliable: bool, s: Store, items: seq<Secret>, sel: Selector,
                              result: Result<seq<Release>, Failure>) {
    match result
    case Ok(found) => AllDecode(env, s, items, |items|) && found == Kept(env, s, items, |items|, sel) && found != []
    case Error(f) =>
      || (f == ReleaseNotFound && AllDecode(env, s, items, |items|) && Kept(env, s, items, |items|, sel) == [])
      || (f == ReadFailed && (reliable ==> !AllDecode(env, s, items, |items|)))
  }

  /** Helm always asks for owner=helm; the driver asks for its own owner instead. */
  function Translated(owner: string, query: LabelMap): LabelMap {
    map k | k in query :: if k == "owner" && query[k] == "helm" then owner else query[k]
  }

  function ServerSelector(query: LabelMap): Selector {
    set k | k in query && IsSystemLabel(k) :: (k, query[k])
  }

  function ClientSelector(query: LabelMap): Selector {
    set k | k in query && !IsSystemLabel(k) :: (k, query[k])
  }

  class ChunkedSecrets {
    const env: Env
    const client: ApiServer
    const hasher: Hasher

    ghost predicate Valid()
      reads client
    {
      client.Valid() && CodecOk(env) && HashIsFnv(env)
    }

    constructor (client: ApiServer, env: Env)
      requires client.Valid() && CodecOk(env) && HashIsFnv(env)
      ensures Valid() && HashOk(env) && this.client == client && this.env == env && fresh(hasher)
    {
      this.client := client;
      this.env := env;
      this.hasher := new Hasher();
      HashIsFnvOk(env);
    }

    method HashForData(data: Bytes) returns (text: string)
      requires HashIsFnv(env)
      modifies hasher
      ensures text == env.hash(data)
    {
      text := hasher.HashForData(data);
    }

    /** Cuts the data into chunks and names them. */
    method CutIntoChunks(key: string, data: Bytes) returns (chunks: seq<Chunk>)
      requires HashIsFnv(env)
      modifies hasher
      ensures chunks == ChunksOf(env, key, Pieces(data, env.chunkSize))
    {
      chunks := [];
      var i := 0;
      CutStarts(env, key, data);
      while i < |data|
        invariant 0 <= i && CutUpTo(env, key, data, i, chunks)
      {
        var end := i + env.chunkSize;
        if end > |data| {
          end := |data|;
        }
        var text := HashForData(data[i..end]);
        var chunk := Chunk(key + "-" + text, data[i..end]);
        CutGoesOn(env, key, data, i, end, chunks, chunk);
        chunks := chunks + [chunk];
        i := i + env.chunkSize;
      }
      CutEnds(env, key, data, i, chunks);
    }

    method EncodeReleaseAsChunks(key: string, r: Release) returns (result: Result<seq<Chunk>, Failure>)
      requires HashIsFnv(env)
      modifies hasher
      ensures result == EncodeChunks(env, key, r)
    {
      if env.enc(r).None? {
        return Error(EncodeFailed);
      }
      var chunks := CutIntoChunks(key, env.enc(r).value);
      if env.maxWriteChunks > 0 && |chunks| > env.maxWriteChunks {
        return Error(TooManyChunks);
      }
      return Ok(chunks);
    }

    /** The loop that creates the chunk Secrets, the same in Create and Update but for the createdAt label. */
    method CreateChunks(key: string, r: Release, index: Secret, rest: seq<Chunk>, at: Option<string>,
                        ghost before: seq<Conf>)
      returns (outcome: Outcome, ghost run: seq<Conf>)
      requires Valid() && IsRun(env, client.reliable, before)
      requires Last(before) == Conf(client.store, AfterWrite(key, r, index, rest, at))
      modifies client`store
      ensures Valid() && IsRun(env, client.reliable, run) && run[0] == before[0]
      ensures Last(run) == Conf(client.store, Finished(key, outcome, None))
    {
      run := before;
      var i := 0;
      while i < |rest|
        invariant 0 <= i <= |rest| && Valid()
        invariant IsRun(env, client.reliable, run) && run[0] == before[0]
        invariant Last(run) == Conf(client.store, AfterWrite(key, r, index, rest[i..], at))
      {
        var chunkSecret := WithLabel(ChunkSecret(env, index, rest[i]), "createdAt", at);
        ghost var p := Last(run).proc;
        assert p.todo[0] == rest[i] && p.todo[1..] == rest[i + 1..];
        var resp := client.Create(chunkSecret);
        ghost var next := Conf(client.store, Resume(env, p, resp));
        ExtendRun(env, client.reliable, run, resp, next);
        run := run + [next];
        if !resp.Found? {
          return Err(RequestFailed), run;
        }
        i := i + 1;
      }
      return Written, run;
    }

    method Create(key: string, r: Release, now: int) returns (outcome: Outcome, ghost run: seq<Conf>)
      requires Valid()
      modifies client`store, hasher
      ensures Valid()
      ensures OpRun(env, client.reliable, old(client.store), Op.Create(key, r, now), run)
      ensures Last(run) == Conf(client.store, Finished(key, outcome, None))
      ensures outcome == Written ==>
                CanCreate(env, old(client.store), key, r, now)
                && client.store == CreatedStore(env, old(client.store), key, r, now)
      ensures outcome == Err(ReleaseExists) ==> key in old(client.store.secrets) && client.store == old(client.store)
    {
      run := [Conf(client.store, StartCreate(env, key, r, now))];
      var encoded := EncodeReleaseAsChunks(key, r);
      if encoded.Error? {
        return Err(encoded.error), run;
      }
      var chunks := encoded.value;
      var createdAt := Itoa(now);
      var indexSecret := WithLabel(IndexSecret(env, key, r, chunks), "createdAt", Some(createdAt));
      var resp := client.Create(indexSecret);
      ghost var next := Conf(client.store, Resume(env, Last(run).proc, resp));
      ExtendRun(env, client.reliable, run, resp, next);
      run := run + [next];
      match resp {
        case Found(index) =>
          outcome, run := CreateChunks(key, r, index, chunks[1..], Some(createdAt), run);
        case AlreadyExists =>
          outcome := Err(ReleaseExists);
        case _ =>
          outcome := Err(RequestFailed);
      }
      CreateResult(env, client.reliable, old(client.store), key, r, now, run);
    }

    method Update(key: string, r: Release, now: int) returns (outcome: Outcome, ghost run: seq<Conf>)
      requires Valid()
      modifies client`store, hasher
      ensures Valid()
      ensures OpRun(env, client.reliable, old(client.store), Op.Update(key, r, now), run)
      ensures Last(run) == Conf(client.store, Finished(key, outcome, None))
      ensures outcome == Written ==>
                key in old(client.store.secrets) && CanUpdate(env, old(client.store), key, r, now)
                && client.store == UpdatedStore(env, old(client.store), key, r, now)
      ensures outcome == Err(ReleaseNotFound) ==> key !in old(client.store.secrets) && client.store == old(client.store)
    {
      run := [Conf(client.store, StartUpdate(key, r, now))];
      var resp := client.Get(key);
      run := Answer(run, resp);
      if !resp.Found? {
        return Err(if resp.NotFound? then ReleaseNotFound else RequestFailed), run;
      }
      var existing := resp.secret;
      outcome, run := ReplaceIndex(key, r, now, existing, run);
      UpdateResult(env, client.reliable, old(client.store), key, r, now, run);
    }

    /** The run after a request that did not change the store. */
    ghost method Answer(before: seq<Conf>, resp: Response) returns (run: seq<Conf>)
      requires IsRun(env, client.reliable, before) && Active(Last(before).proc)
      requires Responds(client.reliable, Last(before).store, NextRequest(env, Last(before).proc), resp, client.store)
      ensures IsRun(env, client.reliable, run) && run[0] == before[0]
      ensures Last(run) == Conf(client.store, Resume(env, Last(before).proc, resp))
    {
      var next := Conf(client.store, Resume(env, Last(before).proc, resp));
      ExtendRun(env, client.reliable, before, resp, next);
      run := before + [next];
    }

    /** Update after the existing index was found: delete the old chunks, replace the index, create the new chunks. */
    method ReplaceIndex(key: string, r: Release, now: int, existing: Secret, ghost before: seq<Conf>)
      returns (outcome: Outcome, ghost run: seq<Conf>)
      requires Valid() && IsRun(env, client.reliable, before)
      requires Last(before) == Conf(client.store, DroppingChunks(key, r, Itoa(now), existing))
      modifies client`store, hasher
      ensures Valid() && IsRun(env, client.reliable, run) && run[0] == before[0]
      ensures Last(run) == Conf(client.store, Finished(key, outcome, None))
    {
      run := before;
      var resp := client.DeleteAll(ChunksForKeySelector(env.owner, existing.name));
      run := Answer(run, resp);
      if !resp.Deleted? {
        return Err(RequestFailed), run;
      }
      var encoded := EncodeReleaseAsChunks(key, r);
      if encoded.Error? {
        return Err(encoded.error), run;
      }
      var chunks := encoded.value;
      var updated := WithLabel(IndexSecret(env, key, r, chunks), "createdAt",
                               Some(LabelOrEmpty(existing, "createdAt")));
      updated := WithLabel(updated, "modifiedAt", Some(Itoa(now)));
      resp := client.Update(updated);
      run := Answer(run, resp);
      if !resp.Found? {
        return Err(RequestFailed), run;
      }
      outcome, run := CreateChunks(key, r, resp.secret, chunks[1..], None, run);
    }

    /** Reads the chunks one after the other.  The decoder may stop reading as soon as it has a whole release, and
        reading ends at the first chunk that cannot be read. */
    method ReadChunks(key: string, deleting: bool, index: Secret, names: seq<string>, first: Bytes,
                      ghost before: seq<Conf>)
      returns (acc: Bytes, ghost run: seq<Conf>)
      requires Valid() && IsRun(env, client.reliable, before)
      requires Last(before) == Conf(client.store, AfterRead(env, key, deleting, index, names, first))
      ensures IsRun(env, client.reliable, run) && run[0] == before[0]
      ensures Last(run) == Conf(client.store, Decoded(env, key, deleting, index, acc))
      ensures env.dec(acc).Some? || client.reliable ==> env.dec(acc) == env.dec(first + Fetch(client.store, names))
    {
      run, acc := before, first;
      var left := names;
      while left != []
        invariant IsRun(env, client.reliable, run) && run[0] == before[0]
        invariant Last(run) == Conf(client.store, AfterRead(env, key, deleting, index, left, acc))
        invariant acc + Fetch(client.store, left) == first + Fetch(client.store, names)
        decreases |left|
      {
        var stops := *;
        if stops && env.dec(acc).Some? {
          Streaming(env, acc, Fetch(client.store, left));
          ghost var next := Conf(client.store, Decoded(env, key, deleting, index, acc));
          StopRun(env, client.reliable, run, next);
          run := run + [next];
          return;
        }
        var resp := client.Get(left[0]);
        run := Answer(run, resp);
        if !(resp.Found? && "chunk" in resp.secret.data) {
          MissingChunk(env, client.reliable, client.store, left, acc, resp);
          return;
        }
        FetchNext(client.store, acc, left);
        acc, left := acc + resp.secret.data["chunk"], left[1..];
      }
      assert acc + Fetch(client.store, left) == acc;
    }

    /** Reads a release from its index Secret and its chunks. */
    method DecodeRelease(key: string, deleting: bool, index: Secret, ghost before: seq<Conf>)
      returns (found: Option<Release>, ghost run: seq<Conf>)
      requires Valid() && IsRun(env, client.reliable, before)
      requires Last(before) == Conf(client.store, AfterIndex(env, key, deleting, index))
      ensures IsRun(env, client.reliable, run) && run[0] == before[0] && Last(run).store == client.store
      ensures Last(run).proc == if found.None? then Fail(key, ReadFailed)
                                else if deleting then DeletingAll(key, index, found.value)
                                else Finished(key, Got(found.value), Some(index))
      ensures found.Some? || client.reliable ==> found == DecodeIndex(env, client.store, index)
    {
      run := before;
      if "extraChunks" !in index.data {
        return None, run;
      }
      var names := env.decNames(index.data["extraChunks"]);
      if names.None? {
        return None, run;
      }
      if env.maxReadChunks > 0 && 1 + |names.value| > env.maxReadChunks {
        return None, run;
      }
      if "chunk" !in index.data {
        return None, run;
      }
      var acc;
      acc, run := ReadChunks(key, deleting, index, names.value, index.data["chunk"], run);
      var decoded := env.dec(acc);
      if decoded.None? {
        return None, run;
      }
      var labels := FilterSystemLabels(decoded.value.labels);
      found := Some(decoded.value.(labels := labels));
    }

    method Get(key: string) returns (outcome: Outcome, ghost run: seq<Conf>)
      requires Valid()
      ensures OpRun(env, client.reliable, client.store, Op.Get(key), run)
      ensures Last(run).store == client.store && Last(run).proc.Finished? && Last(run).proc.outcome == outcome
      ensures outcome == ReadBack(env, client.store, key) || (FaultyRead(outcome) && !client.reliable)
    {
      run := [Conf(client.store, StartGet(key))];
      var resp := client.Get(key);
      run := Answer(run, resp);
      if !resp.Found? {
        return Err(if resp.NotFound? then ReleaseNotFound else RequestFailed), run;
      }
      var found;
      found, run := DecodeRelease(key, false, resp.secret, run);
      if found.None? {
        outcome := Err(ReadFailed);
      } else {
        outcome := Got(found.value);
      }
      GetReadsBack(env, client.reliable, run, key);
    }

    method Delete(key: string) returns (outcome: Outcome, ghost run: seq<Conf>)
      requires Valid()
      modifies client`store
      ensures Valid()
      ensures OpRun(env, client.reliable, old(client.store), Op.Delete(key), run)
      ensures Last(run).store == client.store && Last(run).proc.Finished? && Last(run).proc.outcome == outcome
      ensures outcome.Got? ==> outcome == ReadBack(env, old(client.store), key)
                               && client.store == WithoutKey(env, old(client.store), key)
      ensures client.reliable ==> outcome == ReadBack(env, old(client.store), key)
    {
      run := [Conf(client.store, StartDelete(key))];
      var resp := client.Get(key);
      run := Answer(run, resp);
      if !resp.Found? {
        outcome := Err(if resp.NotFound? then ReleaseNotFound else RequestFailed);
      } else {
        var found;
        found, run := DecodeRelease(key, true, resp.secret, run);
        if found.None? {
          outcome := Err(ReadFailed);
        } else {
          resp := client.DeleteAll(AllForKeySelector(env.owner, key));
          run := Answer(run, resp);
          outcome := if resp.Deleted? then Got(found.value) else Err(RequestFailed);
        }
      }
      DeleteRun(env, client.reliable, old(client.store), key, run);
    }

    /** Decodes one listed index Secret. */
    method DecodeListed(index: Secret) returns (found: Option<Release>)
      requires Valid()
      ensures found.Some? || client.reliable ==> found == DecodeIndex(env, client.store, index)
    {
      ghost var run := [Conf(client.store, AfterIndex(env, index.name, false, index))];
      found, run := DecodeRelease(index.name, false, index, run);
    }

    method List(filter: Release -> bool) returns (result: Result<seq<Release>, Failure>)
      requires Valid()
      ensures || (result == Error(RequestFailed) && !client.reliable)
              || exists items :: Lists(client.store, IndicesSelector(env.owner), items)
                                 && ListAnswer(env, client.reliable, client.store, items, filter, result)
    {
      var listed := client.List(IndicesSelector(env.owner));
      if listed.None? {
        return Error(RequestFailed);
      }
      result := DecodeAndFilter(listed.value, filter);
    }

    method DecodeAndFilter(items: seq<Secret>, filter: Release -> bool) returns (result: Result<seq<Release>, Failure>)
      requires Valid()
      ensures ListAnswer(env, client.reliable, client.store, items, filter, result)
    {
      var results: seq<Release> := [];
      for i := 0 to |items|
        invariant AllDecode(env, client.store, items, i) && results == Listed(env, client.store, items, i, filter)
      {
        var found := DecodeListed(items[i]);
        if found.None? {
          return Error(ReadFailed);
        }
        ListedNext(env, client.store, items, i, filter);
        var rls := found.value.(labels := items[i].labels);
        if filter(rls) {
          results := results + [rls];
        }
      }
      return Ok(results);
    }

    /** The query's in-place translation. */
    method TranslateOwner(query: LabelMap) returns (translated: LabelMap)
      ensures translated == Translated(env.owner, query)
    {
      translated := query;
      var left := query.Keys;
      while left != {}
        invariant left <= query.Keys && translated.Keys == query.Keys
        invariant forall k :: k in query ==>
          translated[k] == if k in left then query[k] else Translated(env.owner, query)[k]
      {
        var k :| k in left;
        left := left - {k};
        if k == "owner" && translated[k] == "helm" {
          translated := translated[k := env.owner];
        }
      }
    }

    /** The labels the server can select by, and the others. */
    method SplitQuery(query: LabelMap) returns (server: Selector, rest: Selector)
      ensures server == ServerSelector(query) && rest == ClientSelector(query)
    {
      server, rest := {}, {};
      var left := query.Keys;
      while left != {}
        invariant left <= query.Keys
        invariant server == set k | k in query && k !in left && IsSystemLabel(k) :: (k, query[k])
        invariant rest == set k | k in query && k !in left && !IsSystemLabel(k) :: (k, query[k])
      {
        var k :| k in left;
        if IsSystemLabel(k) {
          server := server + {(k, query[k])};
        } else {
          rest := rest + {(k, query[k])};
        }
        left := left - {k};
      }
    }

    /** `translated` is what the caller's map of query labels has become. */
    method Query(query: LabelMap) returns (result: Result<seq<Release>, Failure>, translated: LabelMap)
      requires Valid()
      ensures translated == Translated(env.owner, query)
      ensures || (result == Error(RequestFailed) && !client.reliable)
              || exists items :: Lists(client.store, IndicesSelector(env.owner) + ServerSelector(translated), items)
                                 && QueryAnswer(env, client.reliable, client.store, items, ClientSelector(translated),
                                     result)
    {
      translated := TranslateOwner(query);
      var server, rest := SplitQuery(translated);
      var listed := client.List(IndicesSelector(env.owner) + server);
      if listed.None? {
        return Error(RequestFailed), translated;
      }
      result := DecodeAndMatch(listed.value, rest);
    }

    method DecodeAndMatch(items: seq<Secret>, sel: Selector) returns (result: Result<seq<Release>, Failure>)
      requires Valid()
      ensures QueryAnswer(env, client.reliable, client.store, items, sel, result)
    {
      var results: seq<Release> := [];
      for i := 0 to |items|
        invariant AllDecode(env, client.store, items, i) && results == Kept(env, client.store, items, i, sel)
      {
        var found := DecodeListed(items[i]);
        if found.None? {
          return Error(ReadFailed);
        }
        KeptNext(env, client.store, items, i, sel);
        if Matches(sel, found.value.labels) {
          results := results + [found.value];
        }
      }
      return if results == [] then Error(ReleaseNotFound) else Ok(results);
    }
  }
}
