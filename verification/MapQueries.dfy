/** What a Query of a healthy store returns, told by the fields of the releases and by the query as Helm asks it. */
module MapQueries {
  import opened Wrappers
  import opened SecretApi
  import opened Releases
  import opened Labels
  import opened Protocol
  import opened Safety
  import opened Refinement
  import opened Driver
  import opened Querying

  /** One requirement of a query.  Helm asks for owner=helm and means the driver's own releases; the labels of a release
      are its fields, its key, the times in its index, and its own labels. */
  predicate AsksFor(env: Env, k: string, v: string, key: string, r: Release, index: Secret) {
    if k == "owner" then v == "helm" || v == env.owner
    else if k == "type" then v == "index"
    else if k == "key" then v == key
    else if k == "name" then v == r.name
    else if k == "status" then v == r.status
    else if k == "version" then v == Itoa(r.version)
    else if k == "createdAt" || k == "modifiedAt" then Has(index.labels, k, v)
    else k in r.labels && r.labels[k] == v
  }

  predicate AsksForAll(env: Env, query: LabelMap, key: string, r: Release, index: Secret) {
    forall k :: k in query ==> AsksFor(env, k, query[k], key, r, index)
  }

  ghost function AskedKeys(env: Env, s: Store, m: map<string, Release>, query: LabelMap): set<string>
    requires m.Keys <= s.secrets.Keys
  {
    set k | k in m && AsksForAll(env, query, k, m[k], s.secrets[k])
  }

  /** `found` consists of the releases under the keys in `keys` as they are read back, each once. */
  ghost predicate ExactlyReadOf(found: seq<Release>, m: map<string, Release>, keys: set<string>) {
    exists names: seq<string> ::
      && |names| == |found| && NoDuplicates(names) && (forall x :: x in names <==> x in keys)
      && forall i :: 0 <= i < |names| ==> names[i] in m && ReadAs(m[names[i]], found[i])
  }

  lemma SystemRequirement(env: Env, k: string, v: string, key: string, r: Release, index: Secret)
    requires IndexFor(env, key, r, index) && IsSystemLabel(k)
    ensures var asked := if k == "owner" && v == "helm" then env.owner else v;
            Has(index.labels, k, asked) <==> AsksFor(env, k, v, key, r, index)
  {
    IndexSaysRelease(env, key, r, index);
  }

  lemma OneRequirement(env: Env, k: string, v: string, key: string, r: Release, index: Secret)
    requires IndexFor(env, key, r, index)
    ensures var asked := if k == "owner" && v == "helm" then env.owner else v;
            Has(index.labels + UserLabels(r.labels), k, asked) <==> AsksFor(env, k, v, key, r, index)
  {
    if IsSystemLabel(k) {
      SystemRequirement(env, k, v, key, r, index);
    } else {
      IndexSaysRelease(env, key, r, index);
    }
  }

  lemma AskedMatches(env: Env, query: LabelMap, key: string, r: Release, index: Secret)
    requires IndexFor(env, key, r, index)
    ensures MatchesQuery(Translated(env.owner, query), index.labels + UserLabels(r.labels)) <==>
            AsksForAll(env, query, key, r, index)
  {
    var t, labels := Translated(env.owner, query), index.labels + UserLabels(r.labels);
    forall k | k in query
      ensures k in t && (Has(labels, k, t[k]) <==> AsksFor(env, k, query[k], key, r, index))
    {
      OneRequirement(env, k, query[k], key, r, index);
    }
    assert t.Keys == query.Keys;
  }

  lemma AskedAreMatching(env: Env, s: Store, m: map<string, Release>, query: LabelMap)
    requires HashOk(env) && Represents(env, s, m) && ByIndex(s, AllStripped(m)) && m.Keys <= s.secrets.Keys
    ensures MatchingKeys(s, AllStripped(m), Translated(env.owner, query)) == AskedKeys(env, s, m, query)
  {
    forall k | k in m
      ensures k in MatchingKeys(s, AllStripped(m), Translated(env.owner, query)) <==> k in AskedKeys(env, s, m, query)
    {
      assert Stored(env, s, k, m[k]);
      AskedMatches(env, query, k, m[k], s.secrets[k]);
    }
  }

  lemma ReadOfStripped(found: seq<Release>, m: map<string, Release>, keys: set<string>)
    requires ExactlyReleasesOf(found, AllStripped(m), keys)
    ensures ExactlyReadOf(found, m, keys)
  {
    var names :|
      ReleasesOf(found, AllStripped(m), names) && NoDuplicates(names) && forall x :: x in names <==> x in keys;
    forall i | 0 <= i < |names|
      ensures names[i] in m && ReadAs(m[names[i]], found[i])
    {
      ReadAsIff(m[names[i]], found[i]);
    }
  }

  lemma KeysOfStore(env: Env, s: Store, m: map<string, Release>)
    requires Represents(env, s, m)
    ensures m.Keys <= s.secrets.Keys
  {
    StrippedByIndex(env, s, m);
    forall k | k in m
      ensures k in s.secrets
    {
      assert k in AllStripped(m);
    }
  }

  /** On a healthy store a Query that answers returns exactly the releases that the query asks for, each once and as it
      is read back. */
  lemma QueryOfMap(env: Env, reliable: bool, s: Store, m: map<string, Release>, query: LabelMap, items: seq<Secret>,
                   result: Result<seq<Release>, Failure>)
    requires EnvOk(env) && Represents(env, s, m)
    requires Lists(s, IndicesSelector(env.owner) + ServerSelector(Translated(env.owner, query)), items)
    requires QueryAnswer(env, reliable, s, items, ClientSelector(Translated(env.owner, query)), result)
    ensures m.Keys <= s.secrets.Keys
    ensures result.Ok? ==> ExactlyReadOf(result.value, m, AskedKeys(env, s, m, query))
    ensures result == Error(ReleaseNotFound) ==> AskedKeys(env, s, m, query) == {}
  {
    KeysOfStore(env, s, m);
    AnswerOfMap(env, reliable, s, m, Translated(env.owner, query), items, result);
    AskedAreMatching(env, s, m, query);
    if result.Ok? {
      ReadOfStripped(result.value, m, AskedKeys(env, s, m, query));
    }
  }

  /** What Helm asks for when it looks up the history of a release. */
  function HistoryQuery(name: string): LabelMap {
    map["name" := name, "owner" := "helm"]
  }

  lemma HistoryAsks(env: Env, name: string, key: string, r: Release, index: Secret)
    ensures AsksForAll(env, HistoryQuery(name), key, r, index) <==> r.name == name
  {
    var query := HistoryQuery(name);
    assert "name" in query && query["name"] == name;
    forall k | k in query
      ensures k == "owner" || k == "name"
      ensures k == "owner" ==> AsksFor(env, k, query[k], key, r, index)
      ensures k == "name" ==> (AsksFor(env, k, query[k], key, r, index) <==> r.name == name)
    {
    }
  }

  function Named(m: map<string, Release>, name: string): set<string> {
    set k | k in m && m[k].name == name
  }

  lemma HistoryKeys(env: Env, s: Store, m: map<string, Release>, name: string)
    requires m.Keys <= s.secrets.Keys
    ensures AskedKeys(env, s, m, HistoryQuery(name)) == Named(m, name)
  {
    forall k | k in m
      ensures AsksForAll(env, HistoryQuery(name), k, m[k], s.secrets[k]) <==> m[k].name == name
    {
      HistoryAsks(env, name, k, m[k], s.secrets[k]);
    }
  }

  /** The history of a release, as Helm looks it up: of all stored revisions exactly those with the name. */
  lemma HistoryLookup(env: Env, reliable: bool, s: Store, m: map<string, Release>, name: string, items: seq<Secret>,
                      result: Result<seq<Release>, Failure>)
    requires EnvOk(env) && Represents(env, s, m)
    requires var query := Translated(env.owner, HistoryQuery(name));
             && Lists(s, IndicesSelector(env.owner) + ServerSelector(query), items)
             && QueryAnswer(env, reliable, s, items, ClientSelector(query), result)
    ensures result.Ok? ==> ExactlyReadOf(result.value, m, Named(m, name))
    ensures result == Error(ReleaseNotFound) ==> Named(m, name) == {}
  {
    QueryOfMap(env, reliable, s, m, HistoryQuery(name), items, result);
    HistoryKeys(env, s, m, name);
  }

  /** A release as List gives it out: with the labels of its index. */
  function Labelled(s: Store, m: map<string, Release>, key: string): Release
    requires key in m && key in s.secrets
  {
    m[key].(labels := s.secrets[key].labels)
  }

  /** The labels tell the release's name, status, version and key. */
  lemma LabelledTells(env: Env, s: Store, m: map<string, Release>, key: string)
    requires Represents(env, s, m) && key in m
    ensures key in s.secrets
    ensures var labels := Labelled(s, m, key).labels;
            && Has(labels, "name", m[key].name) && Has(labels, "status", m[key].status)
            && Has(labels, "version", Itoa(m[key].version)) && Has(labels, "key", key)
  {
    assert Stored(env, s, key, m[key]);
    IndexSaysRelease(env, key, m[key], s.secrets[key]);
  }

  lemma RelabelledOfMap(s: Store, m: map<string, Release>, key: string)
    requires ByIndex(s, AllStripped(m)) && key in m && key in s.secrets
    ensures key in AllStripped(m) && Relabelled(s, AllStripped(m))[key] == Labelled(s, m, key)
  {
  }

  ghost function PassedKeys(s: Store, m: map<string, Release>, filter: Release -> bool): set<string>
    requires m.Keys <= s.secrets.Keys
  {
    set k | k in m && filter(Labelled(s, m, k))
  }

  /** `found` consists of the releases under the keys in `keys` as List gives them out, each once. */
  ghost predicate ExactlyLabelled(found: seq<Release>, s: Store, m: map<string, Release>, keys: set<string>)
    requires m.Keys <= s.secrets.Keys
  {
    exists names: seq<string> ::
      && |names| == |found| && NoDuplicates(names) && (forall x :: x in names <==> x in keys)
      && forall i :: 0 <= i < |names| ==> names[i] in m && found[i] == Labelled(s, m, names[i])
  }

  lemma PassingOfMap(s: Store, m: map<string, Release>, filter: Release -> bool)
    requires ByIndex(s, AllStripped(m)) && m.Keys <= s.secrets.Keys
    ensures PassingKeys(s, AllStripped(m), filter) == PassedKeys(s, m, filter)
  {
    forall k | k in m
      ensures Relabelled(s, AllStripped(m))[k] == Labelled(s, m, k)
    {
      RelabelledOfMap(s, m, k);
    }
  }

  lemma LabelledOfRelabelled(found: seq<Release>, s: Store, m: map<string, Release>, keys: set<string>)
    requires ByIndex(s, AllStripped(m)) && m.Keys <= s.secrets.Keys
    requires ExactlyReleasesOf(found, Relabelled(s, AllStripped(m)), keys)
    ensures ExactlyLabelled(found, s, m, keys)
  {
    var d := Relabelled(s, AllStripped(m));
    var names :| ReleasesOf(found, d, names) && NoDuplicates(names) && forall x :: x in names <==> x in keys;
    forall i | 0 <= i < |names|
      ensures names[i] in m && found[i] == Labelled(s, m, names[i])
    {
      assert names[i] in d;
      RelabelledOfMap(s, m, names[i]);
    }
  }

  lemma ListedOfMap(env: Env, s: Store, m: map<string, Release>, filter: Release -> bool, items: seq<Secret>,
                    result: Result<seq<Release>, Failure>)
    requires EnvOk(env) && Represents(env, s, m) && Lists(s, IndicesSelector(env.owner), items)
    requires ListAnswer(env, false, s, items, filter, result) && result.Ok? && ByIndex(s, AllStripped(m))
    ensures var d := AllStripped(m); ExactlyReleasesOf(result.value, Relabelled(s, d), PassingKeys(s, d, filter))
  {
    var d := AllStripped(m);
    RepresentsOk(env, s, m);
    ListedAreIndices(env, m.Values, s, items);
    ReadableAreOfMap(env, s, m, items);
    ListedArePassing(env, s, items, |items|, d, filter);
    PassingListed(env, m.Values, s, d, filter, items);
    PickedOnce(items, Relabelled(s, d), PassingKeys(s, d, filter), result.value);
  }

  /** On a healthy store List returns exactly the releases of the map that pass the filter, each once, and unchanged but
      for the labels, which are those of the index. */
  lemma ListOfMap(env: Env, s: Store, m: map<string, Release>, filter: Release -> bool, items: seq<Secret>,
                  result: Result<seq<Release>, Failure>)
    requires EnvOk(env) && Represents(env, s, m) && Lists(s, IndicesSelector(env.owner), items)
    requires ListAnswer(env, false, s, items, filter, result) && result.Ok?
    ensures m.Keys <= s.secrets.Keys
    ensures ExactlyLabelled(result.value, s, m, PassedKeys(s, m, filter))
  {
    KeysOfStore(env, s, m);
    StrippedByIndex(env, s, m);
    ListedOfMap(env, s, m, filter, items, result);
    PassingOfMap(s, m, filter);
    LabelledOfRelabelled(result.value, s, m, PassedKeys(s, m, filter));
  }

  /** Without faults a Query answers exactly if every release is small enough to be read that meets the requirements on
      system labels. */
  lemma QueryOfMapAnswersIff(env: Env, s: Store, m: map<string, Release>, query: LabelMap, items: seq<Secret>,
                             result: Result<seq<Release>, Failure>)
    requires EnvOk(env) && Represents(env, s, m)
    requires Lists(s, IndicesSelector(env.owner) + ServerSelector(Translated(env.owner, query)), items)
    requires QueryAnswer(env, true, s, items, ClientSelector(Translated(env.owner, query)), result)
    ensures m.Keys <= s.secrets.Keys
    ensures (result.Ok? || result == Error(ReleaseNotFound)) <==>
            forall k :: k in m && AsksForAll(env, SystemPart(query), k, m[k], s.secrets[k]) ==>
              WithinReadLimit(env, m[k])
  {
    var t := Translated(env.owner, query);
    KeysOfStore(env, s, m);
    RepresentsOk(env, s, m);
    QueryAnswersIff(env, m.Values, s, t, items, result);
    SmallAreReadable(env, s, m);
    forall k | k in m
      ensures Matches(ServerSelector(t), s.secrets[k].labels) <==>
              AsksForAll(env, SystemPart(query), k, m[k], s.secrets[k])
    {
      assert Stored(env, s, k, m[k]);
      SystemPartMatches(env, query, k, m[k], s.secrets[k]);
    }
  }

  /** The requirements on the eight system labels. */
  function SystemPart(query: LabelMap): LabelMap {
    map k | k in query && k in {"name", "owner", "status", "version", "key", "type", "createdAt", "modifiedAt"} ::
      query[k]
  }

  lemma SystemPartMatches(env: Env, query: LabelMap, key: string, r: Release, index: Secret)
    requires IndexFor(env, key, r, index)
    ensures Matches(ServerSelector(Translated(env.owner, query)), index.labels) <==>
            AsksForAll(env, SystemPart(query), key, r, index)
  {
    var t, part := Translated(env.owner, query), SystemPart(query);
    IndexSaysRelease(env, key, r, index);
    forall k | k in part
      ensures k in t && IsSystemLabel(k) && (k, t[k]) in ServerSelector(t)
      ensures Has(index.labels, k, t[k]) <==> AsksFor(env, k, part[k], key, r, index)
    {
      OneRequirement(env, k, part[k], key, r, index);
    }
    forall req | req in ServerSelector(t)
      ensures req.0 in part && req.1 == t[req.0]
    {
    }
  }
}
