/** List and Query amid other calls: their answer is that of the moment at which the server listed the indices. */
module Listing {
  import opened Wrappers
  import opened SecretApi
  import opened Releases
  import opened Labels
  import opened Chunking
  import opened Protocol
  import opened Safety
  import opened Reads
  import opened Interleaving
  import opened Driver
  import opened Querying

  /* ---------- The release of an index ---------- */

  ghost function ReleaseAt(env: Env, U: set<Release>, n: string, index: Secret): (r: Release)
    requires IndexOk(env, U, n, index)
    ensures r in U && IndexFor(env, n, r, index)
  {
    var r :| r in U && IndexFor(env, n, r, index);
    r
  }

  /** The releases that the indices of the store belong to, whether or not they can be read. */
  ghost function Indexed(env: Env, U: set<Release>, s: Store): (d: map<string, Release>)
    requires StoreOk(env, U, s)
    ensures ByIndex(s, d)
  {
    map n | n in s.secrets && !ChunkShaped(n) && SecretOk(env, U, n, s.secrets[n]) ::
      Stripped(ReleaseAt(env, U, n, s.secrets[n]))
  }

  lemma IndexedAll(env: Env, U: set<Release>, s: Store, n: string)
    requires StoreOk(env, U, s) && n in s.secrets && !ChunkShaped(n)
    ensures n in Indexed(env, U, s) && IndexOk(env, U, n, s.secrets[n])
    ensures Indexed(env, U, s)[n] == Stripped(ReleaseAt(env, U, n, s.secrets[n]))
  {
    assert SecretOk(env, U, n, s.secrets[n]);
  }

  lemma FetchStops(env: Env, key: string, index: Secret, names: seq<string>, acc: Bytes, r: Release, s: Store)
    requires HalfRead(env, key, index, names, acc, r) && (names == [] || names[0] !in s.secrets)
    ensures acc + Fetch(s, names) == Join(ReleasePieces(env, r)[..|ReleasePieces(env, r)| - |names|])
  {
    assert acc + Fetch(s, names) == acc;
  }

  /** Whatever bytes are found, they are the first `j` pieces. */
  lemma {:induction false} FetchesPrefix(env: Env, U: set<Release>, s: Store, key: string, index: Secret,
                                         names: seq<string>, acc: Bytes, r: Release) returns (j: nat)
    requires HashOk(env) && CollisionFree(env, U) && StoreOk(env, U, s)
    requires r in U && HalfRead(env, key, index, names, acc, r)
    ensures j <= |ReleasePieces(env, r)| && acc + Fetch(s, names) == Join(ReleasePieces(env, r)[..j])
    decreases |names|
  {
    j := |ReleasePieces(env, r)| - |names|;
    if names == [] || names[0] !in s.secrets {
      FetchStops(env, key, index, names, acc, r, s);
    } else {
      var piece := ReleasePieces(env, r)[j];
      NextPieceFound(env, U, s, ReadingChunk(key, false, index, names, acc), r, j);
      FetchNext(s, acc, names);
      j := FetchesPrefix(env, U, s, key, index, names[1..], acc + piece, r);
    }
  }

  /** What can be decoded of an index is the release it belongs to. */
  lemma DecodesToRelease(env: Env, U: set<Release>, s: Store, key: string, index: Secret, names: seq<string>,
                         acc: Bytes, r: Release)
    requires EnvOk(env) && CollisionFree(env, U) && StoreOk(env, U, s)
    requires r in U && HalfRead(env, key, index, names, acc, r)
    ensures env.dec(acc + Fetch(s, names)).Some? ==> env.dec(acc + Fetch(s, names)) == Some(r)
  {
    var j := FetchesPrefix(env, U, s, key, index, names, acc, r);
    if env.dec(acc + Fetch(s, names)).Some? {
      JoinSplit(ReleasePieces(env, r), j);
      PiecesJoin(env.enc(r).value, env.chunkSize);
      Streaming(env, acc + Fetch(s, names), Join(ReleasePieces(env, r)[j..]));
    }
  }

  lemma OpenedHalfRead(env: Env, n: string, r: Release, index: Secret)
    requires EnvOk(env) && IndexFor(env, n, r, index) && OpenIndex(env, index).Some?
    ensures var (names, first) := OpenIndex(env, index).value; HalfRead(env, n, index, names, first, r)
  {
    var pieces := ReleasePieces(env, r);
    IndexNames(env, n, r, index);
    JoinOne(pieces[0]);
    assert pieces[..1] == [pieces[0]];
  }

  lemma DecodesIfAtAll(env: Env, U: set<Release>, s: Store, n: string, r: Release, index: Secret)
    requires EnvOk(env) && CollisionFree(env, U) && StoreOk(env, U, s) && r in U && IndexFor(env, n, r, index)
    ensures DecodeIndex(env, s, index).Some? ==> DecodeIndex(env, s, index) == Some(Stripped(r))
  {
    if OpenIndex(env, index).Some? {
      var (names, first) := OpenIndex(env, index).value;
      OpenedHalfRead(env, n, r, index);
      DecodesToRelease(env, U, s, n, index, names, first, r);
    }
  }

  /** An index that can be read is read as the release it belongs to. */
  lemma ReadableIsIndexed(env: Env, U: set<Release>, s: Store, n: string)
    requires EnvOk(env) && CollisionFree(env, U) && StoreOk(env, U, s) && n in Readable(env, s)
    ensures n in Indexed(env, U, s) && Readable(env, s)[n] == Indexed(env, U, s)[n]
  {
    IndexedAll(env, U, s, n);
    DecodesIfAtAll(env, U, s, n, ReleaseAt(env, U, n, s.secrets[n]), s.secrets[n]);
  }

  /* ---------- Amid other calls ---------- */

  /** What Query keeps of the releases it has decoded. */
  function KeptOf(got: seq<Release>, n: nat, sel: Selector): seq<Release>
    requires n <= |got|
  {
    if n == 0 then []
    else KeptOf(got, n - 1, sel) + (if Matches(sel, got[n - 1].labels) then [got[n - 1]] else [])
  }

  /** What List keeps of the releases it has decoded, with the labels of their indices. */
  function PassedOf(got: seq<Release>, items: seq<Secret>, n: nat, filter: Release -> bool): seq<Release>
    requires n <= |got| == |items|
  {
    if n == 0 then []
    else
      var r := got[n - 1].(labels := items[n - 1].labels);
      PassedOf(got, items, n - 1, filter) + (if filter(r) then [r] else [])
  }

  /** The decoded releases are those that `d` has for the listed names. */
  ghost predicate GotThese(got: seq<Release>, items: seq<Secret>, d: map<string, Release>) {
    |got| == |items| && forall k :: 0 <= k < |items| ==> items[k].name in d && got[k] == d[items[k].name]
  }

  lemma {:induction false} KeptOfMatching(got: seq<Release>, items: seq<Secret>, n: nat, d: map<string, Release>,
                                          sel: Selector, keys: set<string>)
    requires n <= |items| && GotThese(got, items, d)
    requires forall i :: 0 <= i < |items| ==> (items[i].name in keys <==> Matches(sel, d[items[i].name].labels))
    ensures ReleasesOf(KeptOf(got, n, sel), d, NamesIn(items, n, keys))
  {
    if n > 0 {
      KeptOfMatching(got, items, n - 1, d, sel, keys);
    }
  }

  lemma {:induction false} PassedOfPassing(got: seq<Release>, s: Store, items: seq<Secret>, n: nat,
                                           d: map<string, Release>, filter: Release -> bool)
    requires n <= |items| && GotThese(got, items, d) && ByIndex(s, d)
    requires forall i :: 0 <= i < |items| ==> items[i] == s.secrets[items[i].name]
    ensures ReleasesOf(PassedOf(got, items, n, filter), Relabelled(s, d), NamesIn(items, n, PassingKeys(s, d, filter)))
  {
    if n > 0 {
      PassedOfPassing(got, s, items, n - 1, d, filter);
    }
  }

  /** The process that step `j` started has come to its end with the release. */
  ghost predicate HasDecoded(states: seq<System>, acts: seq<Action>, j: nat, pid: nat, r: Release)
    requires states != []
  {
    && (forall m :: j < m < |acts| ==> acts[m] != Crash(pid))
    && pid in Last(states).procs && Last(states).procs[pid].Finished? && Last(states).procs[pid].outcome == Got(r)
  }

  /** At step `i` the store was listed, and since then every index of the listing has been decoded, by processes
      numbered from `pid`. */
  ghost predicate DecodesListing(states: seq<System>, acts: seq<Action>, i: nat, sel: Selector, items: seq<Secret>,
                                 pid: nat, got: seq<Release>)
    requires i < |states|
  {
    && OpensListing(states, acts, i, sel, items, pid) && |got| == |items|
    && forall k :: 0 <= k < |got| ==> HasDecoded(states, acts, i + k, pid + k, got[k])
  }

  lemma DecodedIsIndexed(env: Env, U: set<Release>, states: seq<System>, acts: seq<Action>, i: nat, sel: Selector,
                         items: seq<Secret>, pid: nat, got: seq<Release>, k: nat)
    requires EnvOk(env) && CollisionFree(env, U) && IsHistory(env, U, states, acts)
    requires StoreOk(env, U, states[0].store) && states[0].procs == map[] && i < |states|
    requires DecodesListing(states, acts, i, sel, items, pid, got) && k < |items| && StoreOk(env, U, states[i].store)
    requires !ChunkShaped(items[k].name)
    ensures items[k].name in Indexed(env, U, states[i].store)
    ensures got[k] == Indexed(env, U, states[i].store)[items[k].name]
  {
    assert HasDecoded(states, acts, i + k, pid + k, got[k]);
    ListingIsDecodedWhole(env, U, states, acts, i, sel, items, pid, k);
    OfSameIndex(env, U, states[i].store, items[k].name, got[k]);
  }

  lemma OfSameIndex(env: Env, U: set<Release>, s: Store, n: string, found: Release)
    requires EnvOk(env) && CollisionFree(env, U) && StoreOk(env, U, s) && n in s.secrets && !ChunkShaped(n)
    requires IsReleaseOf(env, U, n, s.secrets[n], Got(found))
    ensures n in Indexed(env, U, s) && found == Indexed(env, U, s)[n]
  {
    IndexedAll(env, U, s, n);
    var r :| r in U && IndexFor(env, n, r, s.secrets[n]) && ReadAs(r, found);
    ReadAsIff(r, found);
    IndexDeterminesRelease(env, U, n, r, ReleaseAt(env, U, n, s.secrets[n]), s.secrets[n]);
  }

  /** What was decoded are the releases of the indices at the moment of the listing. */
  lemma DecodedAreIndexed(env: Env, U: set<Release>, states: seq<System>, acts: seq<Action>, i: nat, query: LabelMap,
                          items: seq<Secret>, pid: nat, got: seq<Release>)
    requires EnvOk(env) && CollisionFree(env, U) && IsHistory(env, U, states, acts)
    requires StoreOk(env, U, states[0].store) && states[0].procs == map[] && i < |states|
    requires DecodesListing(states, acts, i, IndicesSelector(env.owner) + ServerSelector(query), items, pid, got)
    ensures StoreOk(env, U, states[i].store)
    ensures GotThese(got, items, Indexed(env, U, states[i].store))
  {
    StateIsOk(env, U, states, acts, i);
    forall k | 0 <= k < |items|
      ensures items[k].name in Indexed(env, U, states[i].store)
      ensures got[k] == Indexed(env, U, states[i].store)[items[k].name]
    {
      IndexSelected(env, U, states[i].store, query, items[k].name);
      DecodedIsIndexed(env, U, states, acts, i, IndicesSelector(env.owner) + ServerSelector(query), items, pid, got, k);
    }
  }

  /** A Query amid other calls.  While writes, deletes, crashes and losses go on, a Query that decodes its whole
      listing returns exactly the releases whose system and user labels together match, each once, of the indices that
      were stored at the moment of the listing. */
  lemma QueryIsOfOneMoment(env: Env, U: set<Release>, states: seq<System>, acts: seq<Action>, i: nat, query: LabelMap,
                           items: seq<Secret>, pid: nat, got: seq<Release>)
    requires EnvOk(env) && CollisionFree(env, U) && IsHistory(env, U, states, acts)
    requires StoreOk(env, U, states[0].store) && states[0].procs == map[] && i < |states|
    requires DecodesListing(states, acts, i, IndicesSelector(env.owner) + ServerSelector(query), items, pid, got)
    ensures StoreOk(env, U, states[i].store)
    ensures var s, found := states[i].store, KeptOf(got, |got|, ClientSelector(query));
            var d := Indexed(env, U, s);
            && ExactlyReleasesOf(found, d, MatchingKeys(s, d, query))
            && (found == [] ==> MatchingKeys(s, d, query) == {})
  {
    DecodedAreIndexed(env, U, states, acts, i, query, items, pid, got);
    var s, d := states[i].store, Indexed(env, U, states[i].store);
    ListedMatch(env, U, s, d, query, items);
    KeptOfMatching(got, items, |got|, d, ClientSelector(query), MatchingKeys(s, d, query));
    MatchingListed(env, U, s, d, query, items);
    PickedOnce(items, d, MatchingKeys(s, d, query), KeptOf(got, |got|, ClientSelector(query)));
  }

  /** The same for List and its filter. */
  lemma ListIsOfOneMoment(env: Env, U: set<Release>, states: seq<System>, acts: seq<Action>, i: nat,
                          filter: Release -> bool, items: seq<Secret>, pid: nat, got: seq<Release>)
    requires EnvOk(env) && CollisionFree(env, U) && IsHistory(env, U, states, acts)
    requires StoreOk(env, U, states[0].store) && states[0].procs == map[] && i < |states|
    requires DecodesListing(states, acts, i, IndicesSelector(env.owner), items, pid, got)
    ensures StoreOk(env, U, states[i].store)
    ensures var s, d := states[i].store, Indexed(env, U, states[i].store);
            ExactlyReleasesOf(PassedOf(got, items, |got|, filter), Relabelled(s, d), PassingKeys(s, d, filter))
  {
    assert IndicesSelector(env.owner) + ServerSelector(map[]) == IndicesSelector(env.owner);
    DecodedAreIndexed(env, U, states, acts, i, map[], items, pid, got);
    var s, d := states[i].store, Indexed(env, U, states[i].store);
    PassedOfPassing(got, s, items, |got|, d, filter);
    PassingListed(env, U, s, d, filter, items);
    PickedOnce(items, Relabelled(s, d), PassingKeys(s, d, filter), PassedOf(got, items, |got|, filter));
  }
}
