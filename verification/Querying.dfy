/** What Query and List answer.  The two-pass Query, by the server on the system labels and after decoding on the
    others, is one filter over the releases with their system and user labels put together. */
module Querying {
  import opened Wrappers
  import opened SecretApi
  import opened Releases
  import opened Labels
  import opened Protocol
  import opened Safety
  import opened Reads
  import opened Refinement
  import opened Driver

  /* ---------- The simple filter ---------- */

  /** Releases by the name of their index Secret, with no labels but user labels. */
  ghost predicate ByIndex(s: Store, d: map<string, Release>) {
    forall k :: k in d ==> k in s.secrets && !ChunkShaped(k) && d[k].labels.Keys !! SYSTEM_LABELS
  }

  predicate MatchesQuery(query: LabelMap, labels: LabelMap) {
    forall k :: k in query ==> Has(labels, k, query[k])
  }

  /** One pass over the releases, by the system labels of the index Secret and the user labels of the release. */
  ghost function MatchingKeys(s: Store, d: map<string, Release>, query: LabelMap): set<string>
    requires ByIndex(s, d)
  {
    set k | k in d && MatchesQuery(query, s.secrets[k].labels + d[k].labels)
  }

  /** The releases as List gives them out, with the labels of their index Secret. */
  ghost function Relabelled(s: Store, d: map<string, Release>): map<string, Release>
    requires ByIndex(s, d)
  {
    map k | k in d :: d[k].(labels := s.secrets[k].labels)
  }

  ghost function PassingKeys(s: Store, d: map<string, Release>, filter: Release -> bool): set<string>
    requires ByIndex(s, d)
  {
    set k | k in d && filter(Relabelled(s, d)[k])
  }

  ghost predicate NoDuplicates(names: seq<string>) {
    forall i, j :: 0 <= i < j < |names| ==> names[i] != names[j]
  }

  ghost predicate ReleasesOf(found: seq<Release>, d: map<string, Release>, names: seq<string>) {
    |names| == |found| && forall i :: 0 <= i < |names| ==> names[i] in d && found[i] == d[names[i]]
  }

  /** `found` consists of the releases under the keys in `keys`, each once. */
  ghost predicate ExactlyReleasesOf(found: seq<Release>, d: map<string, Release>, keys: set<string>) {
    exists names: seq<string> ::
      ReleasesOf(found, d, names) && NoDuplicates(names) && forall x :: x in names <==> x in keys
  }

  lemma SplitMatches(query: LabelMap, system: LabelMap, user: LabelMap)
    requires system.Keys <= SYSTEM_LABELS && user.Keys !! SYSTEM_LABELS
    ensures MatchesQuery(query, system + user) <==>
            Matches(ServerSelector(query), system) && Matches(ClientSelector(query), user)
  {
    if MatchesQuery(query, system + user) {
      forall req | req in ServerSelector(query)
        ensures req.0 in system && system[req.0] == req.1
      {
        assert Has(system + user, req.0, query[req.0]);
      }
      forall req | req in ClientSelector(query)
        ensures req.0 in user && user[req.0] == req.1
      {
        assert Has(system + user, req.0, query[req.0]);
      }
    }
    if Matches(ServerSelector(query), system) && Matches(ClientSelector(query), user) {
      forall k | k in query
        ensures Has(system + user, k, query[k])
      {
        if IsSystemLabel(k) {
          assert (k, query[k]) in ServerSelector(query);
        } else {
          assert (k, query[k]) in ClientSelector(query);
        }
      }
    }
  }

  lemma MatchesBoth(a: Selector, b: Selector, labels: LabelMap)
    ensures Matches(a + b, labels) <==> Matches(a, labels) && Matches(b, labels)
  {
  }

  /** The server selects exactly the index Secrets whose system labels match. */
  lemma IndexSelected(env: Env, U: set<Release>, s: Store, query: LabelMap, n: string)
    requires StoreOk(env, U, s) && n in s.secrets
    ensures n in Selected(s, IndicesSelector(env.owner)) <==> !ChunkShaped(n)
    ensures n in Selected(s, IndicesSelector(env.owner) + ServerSelector(query)) <==>
            !ChunkShaped(n) && Matches(ServerSelector(query), s.secrets[n].labels)
    ensures !ChunkShaped(n) ==> s.secrets[n].labels.Keys <= SYSTEM_LABELS
  {
    var x := s.secrets[n];
    assert SecretOk(env, U, n, x);
    SelectorMeaning(env.owner, n, x.labels);
    MatchesBoth(IndicesSelector(env.owner), ServerSelector(query), x.labels);
    if ChunkShaped(n) {
      assert Has(x.labels, "type", "chunk");
    } else {
      IndexIsLabelled(env, U, n, x);
    }
  }

  lemma IndexIsLabelled(env: Env, U: set<Release>, n: string, x: Secret)
    requires IndexOk(env, U, n, x)
    ensures Has(x.labels, "owner", env.owner) && Has(x.labels, "type", "index") && x.labels.Keys <= SYSTEM_LABELS
  {
    var r :| r in U && IndexFor(env, n, r, x);
    var model := IndexSecret(env, n, r, ReleaseChunks(env, n, r)).labels;
    assert "owner" in model && "type" in model;
  }

  /** A release matches the query exactly if the server selects its index and the rest matches after decoding. */
  lemma KeyMatches(env: Env, U: set<Release>, s: Store, d: map<string, Release>, query: LabelMap, key: string)
    requires StoreOk(env, U, s) && ByIndex(s, d) && key in d
    ensures key in MatchingKeys(s, d, query) <==>
            && key in Selected(s, IndicesSelector(env.owner) + ServerSelector(query))
            && Matches(ClientSelector(query), d[key].labels)
  {
    IndexSelected(env, U, s, query, key);
    SplitMatches(query, s.secrets[key].labels, d[key].labels);
  }

  /* ---------- Picking from a listing ---------- */

  /** The names among the first `n` that are in `keys`. */
  function NamesIn(items: seq<Secret>, n: nat, keys: set<string>): seq<string>
    requires n <= |items|
  {
    if n == 0 then []
    else NamesIn(items, n - 1, keys) + (if items[n - 1].name in keys then [items[n - 1].name] else [])
  }

  lemma {:induction false} NamesInMeaning(items: seq<Secret>, n: nat, keys: set<string>, x: string)
    requires n <= |items|
    ensures x in NamesIn(items, n, keys) <==> x in keys && exists i :: 0 <= i < n && items[i].name == x
  {
    if n > 0 {
      NamesInMeaning(items, n - 1, keys, x);
    }
  }

  lemma {:induction false} NamesInOnce(items: seq<Secret>, n: nat, keys: set<string>)
    requires n <= |items| && forall i, j :: 0 <= i < j < |items| ==> items[i].name != items[j].name
    ensures NoDuplicates(NamesIn(items, n, keys))
  {
    if n > 0 {
      NamesInOnce(items, n - 1, keys);
      NamesInMeaning(items, n - 1, keys, items[n - 1].name);
    }
  }

  /** Going through a listing picks every wanted key once, if all of them are listed. */
  lemma PickedOnce(items: seq<Secret>, d: map<string, Release>, keys: set<string>, found: seq<Release>)
    requires forall i, j :: 0 <= i < j < |items| ==> items[i].name != items[j].name
    requires forall k :: k in keys ==> exists i :: 0 <= i < |items| && items[i].name == k
    requires ReleasesOf(found, d, NamesIn(items, |items|, keys))
    ensures ExactlyReleasesOf(found, d, keys)
    ensures found == [] ==> keys == {}
  {
    var names := NamesIn(items, |items|, keys);
    NamesInOnce(items, |items|, keys);
    forall x: string
      ensures x in names <==> x in keys
    {
      NamesInMeaning(items, |items|, keys, x);
    }
  }

  /** A listing has what its selector selects. */
  lemma ListedBySelector(s: Store, sel: Selector, items: seq<Secret>, n: string)
    requires Lists(s, sel, items) && n in Selected(s, sel)
    ensures exists i :: 0 <= i < |items| && items[i].name == n
  {
    assert n in Names(items);
  }

  /** The matching keys are listed. */
  lemma MatchingListed(env: Env, U: set<Release>, s: Store, d: map<string, Release>, query: LabelMap,
                       items: seq<Secret>)
    requires StoreOk(env, U, s) && ByIndex(s, d)
    requires Lists(s, IndicesSelector(env.owner) + ServerSelector(query), items)
    ensures forall k :: k in MatchingKeys(s, d, query) ==> exists i :: 0 <= i < |items| && items[i].name == k
  {
    forall k | k in MatchingKeys(s, d, query)
      ensures exists i :: 0 <= i < |items| && items[i].name == k
    {
      KeyMatches(env, U, s, d, query, k);
      ListedBySelector(s, IndicesSelector(env.owner) + ServerSelector(query), items, k);
    }
  }

  lemma PassingListed(env: Env, U: set<Release>, s: Store, d: map<string, Release>, filter: Release -> bool,
                      items: seq<Secret>)
    requires StoreOk(env, U, s) && ByIndex(s, d) && Lists(s, IndicesSelector(env.owner), items)
    ensures forall k :: k in PassingKeys(s, d, filter) ==> exists i :: 0 <= i < |items| && items[i].name == k
  {
    forall k | k in PassingKeys(s, d, filter)
      ensures exists i :: 0 <= i < |items| && items[i].name == k
    {
      IndexSelected(env, U, s, map[], k);
      ListedBySelector(s, IndicesSelector(env.owner), items, k);
    }
  }

  /* ---------- A store that nobody changes ---------- */

  /** The releases that can be read from the store, whatever is half-written in it. */
  ghost function Readable(env: Env, s: Store): (d: map<string, Release>)
    ensures ByIndex(s, d)
  {
    map n | n in s.secrets && !ChunkShaped(n) && DecodeIndex(env, s, s.secrets[n]).Some? ::
      DecodeIndex(env, s, s.secrets[n]).value
  }

  /** Every listed index decodes, to the release `d` has for it. */
  ghost predicate DecodeTo(env: Env, s: Store, items: seq<Secret>, d: map<string, Release>) {
    forall i :: 0 <= i < |items| ==>
      items[i].name in d && DecodeIndex(env, s, items[i]) == Some(d[items[i].name])
      && items[i].name in s.secrets && items[i] == s.secrets[items[i].name]
  }

  lemma ListedDecode(env: Env, U: set<Release>, s: Store, query: LabelMap, items: seq<Secret>)
    requires StoreOk(env, U, s) && Lists(s, IndicesSelector(env.owner) + ServerSelector(query), items)
    ensures AllDecode(env, s, items, |items|) <==> DecodeTo(env, s, items, Readable(env, s))
  {
    forall i | 0 <= i < |items|
      ensures items[i].name in s.secrets && items[i] == s.secrets[items[i].name] && !ChunkShaped(items[i].name)
    {
      IndexSelected(env, U, s, query, items[i].name);
    }
  }

  lemma {:induction false} KeptAreMatching(env: Env, s: Store, items: seq<Secret>, n: nat, d: map<string, Release>,
                                           sel: Selector, keys: set<string>)
    requires n <= |items| && DecodeTo(env, s, items, d)
    requires forall i :: 0 <= i < |items| ==> (items[i].name in keys <==> Matches(sel, d[items[i].name].labels))
    ensures ReleasesOf(Kept(env, s, items, n, sel), d, NamesIn(items, n, keys))
  {
    if n > 0 {
      KeptAreMatching(env, s, items, n - 1, d, sel, keys);
    }
  }

  /** Of the listed keys exactly those match that the second pass keeps. */
  lemma ListedMatch(env: Env, U: set<Release>, s: Store, d: map<string, Release>, query: LabelMap, items: seq<Secret>)
    requires StoreOk(env, U, s) && ByIndex(s, d)
    requires Lists(s, IndicesSelector(env.owner) + ServerSelector(query), items)
    requires forall i :: 0 <= i < |items| ==> items[i].name in d
    ensures forall i :: 0 <= i < |items| ==>
              (items[i].name in MatchingKeys(s, d, query) <==> Matches(ClientSelector(query), d[items[i].name].labels))
  {
    forall i | 0 <= i < |items|
      ensures items[i].name in MatchingKeys(s, d, query) <==> Matches(ClientSelector(query), d[items[i].name].labels)
    {
      KeyMatches(env, U, s, d, query, items[i].name);
    }
  }

  lemma KeptExactly(env: Env, U: set<Release>, s: Store, d: map<string, Release>, query: LabelMap, items: seq<Secret>)
    requires StoreOk(env, U, s) && ByIndex(s, d) && DecodeTo(env, s, items, d)
    requires Lists(s, IndicesSelector(env.owner) + ServerSelector(query), items)
    ensures var kept := Kept(env, s, items, |items|, ClientSelector(query));
            && ExactlyReleasesOf(kept, d, MatchingKeys(s, d, query))
            && (kept == [] ==> MatchingKeys(s, d, query) == {})
  {
    ListedMatch(env, U, s, d, query, items);
    KeptAreMatching(env, s, items, |items|, d, ClientSelector(query), MatchingKeys(s, d, query));
    MatchingListed(env, U, s, d, query, items);
    PickedOnce(items, d, MatchingKeys(s, d, query), Kept(env, s, items, |items|, ClientSelector(query)));
  }

  /** Query equals the simple filter, on every store that calls, failures and crashes can leave.  A successful Query
      returns exactly the releases that can be read and whose system and user labels together match the translated
      query, each once; not-found means that there are none. */
  lemma QueryEqualsFilter(env: Env, U: set<Release>, reliable: bool, s: Store, query: LabelMap, items: seq<Secret>,
                          result: Result<seq<Release>, Failure>)
    requires StoreOk(env, U, s) && Lists(s, IndicesSelector(env.owner) + ServerSelector(query), items)
    requires QueryAnswer(env, reliable, s, items, ClientSelector(query), result)
    ensures var d := Readable(env, s);
            && (result.Ok? ==> result.value != [] && ExactlyReleasesOf(result.value, d, MatchingKeys(s, d, query)))
            && (result == Error(ReleaseNotFound) ==> MatchingKeys(s, d, query) == {})
  {
    var d := Readable(env, s);
    ListedDecode(env, U, s, query, items);
    if AllDecode(env, s, items, |items|) {
      KeptExactly(env, U, s, d, query, items);
    }
  }

  /** Without faults Query finds or does not find, rather than failing, exactly if every index whose system labels
      match can be read, and whatever else is in the store. */
  lemma QueryAnswersIff(env: Env, U: set<Release>, s: Store, query: LabelMap, items: seq<Secret>,
                        result: Result<seq<Release>, Failure>)
    requires StoreOk(env, U, s) && Lists(s, IndicesSelector(env.owner) + ServerSelector(query), items)
    requires QueryAnswer(env, true, s, items, ClientSelector(query), result)
    ensures (result.Ok? || result == Error(ReleaseNotFound)) <==>
            forall n :: n in s.secrets && !ChunkShaped(n) && Matches(ServerSelector(query), s.secrets[n].labels) ==>
              n in Readable(env, s)
  {
    ListedDecode(env, U, s, query, items);
    forall n | n in s.secrets && !ChunkShaped(n) && Matches(ServerSelector(query), s.secrets[n].labels)
      ensures exists i :: 0 <= i < |items| && items[i].name == n
    {
      IndexSelected(env, U, s, query, n);
      ListedBySelector(s, IndicesSelector(env.owner) + ServerSelector(query), items, n);
    }
    forall i | 0 <= i < |items|
      ensures items[i].name in s.secrets && !ChunkShaped(items[i].name)
      ensures Matches(ServerSelector(query), s.secrets[items[i].name].labels)
    {
      IndexSelected(env, U, s, query, items[i].name);
    }
  }

  lemma {:induction false} ListedArePassing(env: Env, s: Store, items: seq<Secret>, n: nat, d: map<string, Release>,
                                            filter: Release -> bool)
    requires ByIndex(s, d) && n <= |items| && DecodeTo(env, s, items, d)
    ensures ReleasesOf(Listed(env, s, items, n, filter), Relabelled(s, d), NamesIn(items, n, PassingKeys(s, d, filter)))
  {
    if n > 0 {
      ListedArePassing(env, s, items, n - 1, d, filter);
    }
  }

  /** List equals the filter alike: a successful List returns exactly the readable releases that the filter lets pass
      when they have the labels of their index, each once; and without faults it succeeds exactly if every index of
      the store can be read. */
  lemma ListEqualsFilter(env: Env, U: set<Release>, reliable: bool, s: Store, items: seq<Secret>,
                         filter: Release -> bool, result: Result<seq<Release>, Failure>)
    requires StoreOk(env, U, s) && Lists(s, IndicesSelector(env.owner), items)
    requires ListAnswer(env, reliable, s, items, filter, result)
    ensures var d := Readable(env, s);
            && (result.Ok? ==> ExactlyReleasesOf(result.value, Relabelled(s, d), PassingKeys(s, d, filter)))
            && (result.Ok? ==> forall n :: n in s.secrets && !ChunkShaped(n) ==> n in d)
            && (reliable && (forall n :: n in s.secrets && !ChunkShaped(n) ==> n in d) ==> result.Ok?)
  {
    var d := Readable(env, s);
    ListedAreIndices(env, U, s, items);
    if result.Ok? {
      ListedArePassing(env, s, items, |items|, d, filter);
      PassingListed(env, U, s, d, filter, items);
      PickedOnce(items, Relabelled(s, d), PassingKeys(s, d, filter), result.value);
    }
  }

  lemma ListedAreIndices(env: Env, U: set<Release>, s: Store, items: seq<Secret>)
    requires StoreOk(env, U, s) && Lists(s, IndicesSelector(env.owner), items)
    ensures AllDecode(env, s, items, |items|) <==> DecodeTo(env, s, items, Readable(env, s))
    ensures AllDecode(env, s, items, |items|) <==>
            forall n :: n in s.secrets && !ChunkShaped(n) ==> n in Readable(env, s)
  {
    assert IndicesSelector(env.owner) + ServerSelector(map[]) == IndicesSelector(env.owner);
    ListedDecode(env, U, s, map[], items);
    forall n | n in s.secrets && !ChunkShaped(n)
      ensures exists i :: 0 <= i < |items| && items[i].name == n
    {
      IndexSelected(env, U, s, map[], n);
      ListedBySelector(s, IndicesSelector(env.owner), items, n);
    }
    forall i | 0 <= i < |items|
      ensures items[i].name in s.secrets && !ChunkShaped(items[i].name)
    {
      IndexSelected(env, U, s, map[], items[i].name);
    }
  }

  /* ---------- Healthy stores ---------- */

  ghost function AllStripped(m: map<string, Release>): map<string, Release> {
    map k | k in m :: Stripped(m[k])
  }

  lemma StrippedByIndex(env: Env, s: Store, m: map<string, Release>)
    requires Represents(env, s, m)
    ensures ByIndex(s, AllStripped(m))
  {
    forall k | k in m
      ensures k in s.secrets && !ChunkShaped(k)
    {
      assert Stored(env, s, k, m[k]);
    }
  }

  /** In a store that represents a map exactly the releases within the read limit can be read. */
  lemma ReadableOfMap(env: Env, s: Store, m: map<string, Release>, n: string)
    requires EnvOk(env) && Represents(env, s, m) && n in s.secrets && !ChunkShaped(n)
    ensures n in m && (n in Readable(env, s) <==> WithinReadLimit(env, m[n]))
    ensures n in Readable(env, s) ==> Readable(env, s)[n] == Stripped(m[n])
  {
    KeysOfMap(env, s, m, n);
    assert Stored(env, s, n, m[n]);
    StoredReadsBack(env, s, n, m[n]);
  }

  lemma ReadableAreOfMap(env: Env, s: Store, m: map<string, Release>, items: seq<Secret>)
    requires EnvOk(env) && Represents(env, s, m) && DecodeTo(env, s, items, Readable(env, s))
    ensures DecodeTo(env, s, items, AllStripped(m))
  {
    forall i | 0 <= i < |items|
      ensures items[i].name in m && Readable(env, s)[items[i].name] == Stripped(m[items[i].name])
    {
      ReadableOfMap(env, s, m, items[i].name);
    }
  }

  lemma AnswerOfMap(env: Env, reliable: bool, s: Store, m: map<string, Release>, query: LabelMap, items: seq<Secret>,
                    result: Result<seq<Release>, Failure>)
    requires EnvOk(env) && Represents(env, s, m)
    requires Lists(s, IndicesSelector(env.owner) + ServerSelector(query), items)
    requires QueryAnswer(env, reliable, s, items, ClientSelector(query), result)
    ensures ByIndex(s, AllStripped(m))
    ensures result.Ok? ==> ExactlyReleasesOf(result.value, AllStripped(m), MatchingKeys(s, AllStripped(m), query))
    ensures result == Error(ReleaseNotFound) ==> MatchingKeys(s, AllStripped(m), query) == {}
  {
    StrippedByIndex(env, s, m);
    RepresentsOk(env, s, m);
    if AllDecode(env, s, items, |items|) {
      ListedDecode(env, m.Values, s, query, items);
      ReadableAreOfMap(env, s, m, items);
      KeptExactly(env, m.Values, s, AllStripped(m), query, items);
    }
  }

  lemma SmallAreReadable(env: Env, s: Store, m: map<string, Release>)
    requires EnvOk(env) && Represents(env, s, m)
    ensures forall n :: n in s.secrets && !ChunkShaped(n) <==> n in m
    ensures forall n :: n in m ==> (n in Readable(env, s) <==> WithinReadLimit(env, m[n]))
  {
    StrippedByIndex(env, s, m);
    forall n | n in s.secrets && !ChunkShaped(n)
      ensures n in m && (n in Readable(env, s) <==> WithinReadLimit(env, m[n]))
    {
      ReadableOfMap(env, s, m, n);
    }
    forall n | n in m
      ensures n in s.secrets && !ChunkShaped(n)
    {
      assert n in AllStripped(m);
    }
  }
}
