/** Releases as the driver sees them, and the labels and label selectors of its Secrets. */
module Releases {

  /** A Helm release.  `content` stands for everything the driver does not look at by itself
      (manifest, configuration, chart, hooks). */
  datatype Release = Release(
    name: string,
    version: int,
    status: string,
    labels: map<string, string>,
    content: string)

  const DIGITS := "0123456789"

  /** Decimal notation, as strconv.Itoa writes it. */
  function Itoa(n: int): (s: string)
    ensures |s| > 0
    decreases n < 0, if n < 0 then -n else n
  {
    if n < 0 then "-" + Itoa(-n)
    else if n < 10 then [DIGITS[n]]
    else Itoa(n / 10) + [DIGITS[n % 10]]
  }

  /** The value of a row of decimal digits. */
  function DigitsValue(s: string): int {
    if s == "" then 0 else 10 * DigitsValue(s[..|s| - 1]) + (s[|s| - 1] as int - '0' as int)
  }

  /** The number that a decimal text stands for. */
  function ParseInt(s: string): int {
    if s != "" && s[0] == '-' then -DigitsValue(s[1..]) else DigitsValue(s)
  }

  lemma DigitAt(d: nat)
    requires d < 10
    ensures DIGITS[d] as int - '0' as int == d && '0' <= DIGITS[d] <= '9'
  {
  }

  /** The text of a number has digits only and no leading zero, and stands for the number. */
  lemma {:induction false} DigitsRoundTrip(n: nat)
    ensures DigitsValue(Itoa(n)) == n
    ensures forall i :: 0 <= i < |Itoa(n)| ==> '0' <= Itoa(n)[i] <= '9'
    ensures n > 0 ==> Itoa(n)[0] != '0'
  {
    DigitAt(n % 10);
    var s := Itoa(n);
    if n >= 10 {
      DigitsRoundTrip(n / 10);
      assert s[..|s| - 1] == Itoa(n / 10);
    } else {
      assert s[..|s| - 1] == "";
    }
  }

  /** Parsing inverts the decimal notation, of negative numbers too. */
  lemma ItoaRoundTrip(n: int)
    ensures ParseInt(Itoa(n)) == n
  {
    if n < 0 {
      DigitsRoundTrip(-n);
      assert Itoa(n)[1..] == Itoa(-n);
    } else {
      DigitsRoundTrip(n);
    }
  }
}

module Labels {
  import opened SecretApi
  import opened Releases

  const SYSTEM_LABELS: set<string> :=
    {"name", "owner", "status", "version", "key", "type", "createdAt", "modifiedAt"}

  predicate IsSystemLabel(key: string) {
    key in SYSTEM_LABELS
  }

  function IndexLabels(owner: string, key: string, r: Release): LabelMap {
    map["name" := r.name, "owner" := owner, "status" := r.status, "version" := Itoa(r.version),
        "key" := key, "type" := "index"]
  }

  function ChunkLabels(owner: string, key: string): LabelMap {
    map["owner" := owner, "key" := key, "type" := "chunk"]
  }

  function IndicesSelector(owner: string): Selector {
    {("owner", owner), ("type", "index")}
  }

  function AllForKeySelector(owner: string, key: string): Selector {
    {("owner", owner), ("key", key)}
  }

  function ChunksForKeySelector(owner: string, key: string): Selector {
    {("owner", owner), ("key", key), ("type", "chunk")}
  }

  predicate Has(labels: LabelMap, key: string, value: string) {
    key in labels && labels[key] == value
  }

  /** The labels that are not system labels. */
  function UserLabels(labels: LabelMap): LabelMap {
    map k | k in labels && !IsSystemLabel(k) :: labels[k]
  }

  /** What a release looks like after being stored and read back. */
  function Stripped(r: Release): Release {
    r.(labels := UserLabels(r.labels))
  }

  /** `found` is what `r` looks like after being stored and read back: the same release, but for the labels with the
      eight names that the driver uses itself. */
  ghost predicate ReadAs(r: Release, found: Release) {
    && found.name == r.name && found.version == r.version && found.status == r.status && found.content == r.content
    && UserLabelled(r.labels, found.labels)
  }

  ghost predicate UserLabelled(all: LabelMap, user: LabelMap) {
    && (forall k :: k in user <==>
         && k in all
         && k != "name" && k != "owner" && k != "status" && k != "version"
         && k != "key" && k != "type" && k != "createdAt" && k != "modifiedAt")
    && forall k :: k in user ==> k in all && user[k] == all[k]
  }

  lemma UserLabelledIff(all: LabelMap, user: LabelMap)
    ensures UserLabelled(all, user) <==> user == UserLabels(all)
  {
    if UserLabelled(all, user) {
      assert user.Keys == UserLabels(all).Keys;
    }
  }

  lemma ReadAsIff(r: Release, found: Release)
    ensures ReadAs(r, found) <==> found == Stripped(r)
  {
    UserLabelledIff(r.labels, found.labels);
  }

  /** A release that uses none of the eight names is read back as it is. */
  lemma ReadAsItself(r: Release, found: Release)
    requires ReadAs(r, found)
    requires "name" !in r.labels && "owner" !in r.labels && "status" !in r.labels && "version" !in r.labels
    requires "key" !in r.labels && "type" !in r.labels && "createdAt" !in r.labels && "modifiedAt" !in r.labels
    ensures found == r
  {
    assert found.labels.Keys == r.labels.Keys;
  }

  method FilterSystemLabels(labels: LabelMap) returns (result: LabelMap)
    ensures result == UserLabels(labels) && UserLabelled(labels, result)
  {
    UserLabelledIff(labels, UserLabels(labels));
    result := map[];
    var left := labels.Keys;
    while left != {}
      invariant left <= labels.Keys
      invariant result.Keys == set k | k in labels && k !in left && !IsSystemLabel(k)
      invariant forall k :: k in result ==> result[k] == labels[k]
    {
      var k :| k in left;
      left := left - {k};
      if !IsSystemLabel(k) {
        result := result[k := labels[k]];
      }
    }
  }

  /** Each of the three selectors picks what its name says, whatever other labels are present. */
  lemma SelectorMeaning(owner: string, key: string, labels: LabelMap)
    ensures Matches(IndicesSelector(owner), labels) <==> Has(labels, "owner", owner) && Has(labels, "type", "index")
    ensures Matches(AllForKeySelector(owner, key), labels) <==> Has(labels, "owner", owner) && Has(labels, "key", key)
    ensures Matches(ChunksForKeySelector(owner, key), labels) <==>
            Has(labels, "owner", owner) && Has(labels, "key", key) && Has(labels, "type", "chunk")
  {
    var o, k, i, c := ("owner", owner), ("key", key), ("type", "index"), ("type", "chunk");
    assert o in IndicesSelector(owner) && i in IndicesSelector(owner);
    assert o in AllForKeySelector(owner, key) && k in AllForKeySelector(owner, key);
    assert o in ChunksForKeySelector(owner, key) && k in ChunksForKeySelector(owner, key)
           && c in ChunksForKeySelector(owner, key);
  }
}
