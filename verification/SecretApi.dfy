/** The part of the Kubernetes API server that the chunked storage driver talks to: the Secrets of one
    namespace.  A request is a value, and one relation says which responses the server may give and what
    each of them does to the stored Secrets.  Every request may fail; a failed create or update may or may
    not have taken effect, and a failed collection delete may have removed any part of its matches. */
module SecretApi {
  import opened Wrappers

  type Bytes = seq<bv8>
  type LabelMap = map<string, string>

  /** A set of key=value requirements, all of which must hold. */
  type Selector = set<(string, string)>

  datatype SecretType = ChunkedIndex | ChunkedChunk

  datatype OwnerRef = OwnerRef(name: string, uid: nat)

  datatype Secret = Secret(
    name: string,
    typ: SecretType,
    labels: LabelMap,
    owner: Option<OwnerRef>,
    immutable: bool,
    data: map<string, Bytes>,
    uid: nat)

  /** `nextUid` is the UID the server gives to the next Secret it creates. */
  datatype Store = Store(secrets: map<string, Secret>, nextUid: nat)

  datatype Request =
    | CreateSecret(secret: Secret)
    | GetSecret(name: string)
    | UpdateSecret(secret: Secret)
    | DeleteCollection(selector: Selector)

  datatype Response =
    | Found(secret: Secret)
    | Deleted
    | NotFound
    | AlreadyExists
    | Rejected
    | Failed

  ghost predicate WellNamed(s: Store) {
    forall n :: n in s.secrets ==> s.secrets[n].name == n && s.secrets[n].uid < s.nextUid
  }

  predicate Matches(sel: Selector, labels: LabelMap) {
    forall req :: req in sel ==> req.0 in labels && labels[req.0] == req.1
  }

  function Selected(s: Store, sel: Selector): set<string> {
    set n | n in s.secrets && Matches(sel, s.secrets[n].labels)
  }

  function Without(s: Store, names: set<string>): Store {
    s.(secrets := s.secrets - names)
  }

  function Put(s: Store, x: Secret): Store {
    s.(secrets := s.secrets[x.name := x])
  }

  /** A new Secret gets a fresh UID. */
  function Insert(s: Store, x: Secret): Store {
    Put(s, x.(uid := s.nextUid)).(nextUid := s.nextUid + 1)
  }

  /** The server refuses to change a Secret's type, and the data of an immutable Secret. */
  predicate UpdateAllowed(was: Secret, x: Secret) {
    was.typ == x.typ && (was.immutable ==> x.immutable && x.data == was.data)
  }

  /** How the server answers when nothing goes wrong. */
  function Serve(s: Store, req: Request): (Store, Response) {
    match req
    case CreateSecret(x) =>
      if x.name in s.secrets then (s, AlreadyExists) else (Insert(s, x), Found(x.(uid := s.nextUid)))
    case GetSecret(n) =>
      (s, if n in s.secrets then Found(s.secrets[n]) else NotFound)
    case UpdateSecret(x) =>
      if x.name !in s.secrets then (s, NotFound)
      else if !UpdateAllowed(s.secrets[x.name], x) then (s, Rejected)
      else var y := x.(uid := s.secrets[x.name].uid); (Put(s, y), Found(y))
    case DeleteCollection(sel) =>
      (Without(s, Selected(s, sel)), Deleted)
  }

  /** `s'` is `s` after some, all or none of the selected Secrets were removed. */
  ghost predicate PartlyDeleted(s: Store, sel: Selector, s': Store) {
    && s'.nextUid == s.nextUid
    && s'.secrets.Keys <= s.secrets.Keys
    && s.secrets.Keys - s'.secrets.Keys <= Selected(s, sel)
    && forall n :: n in s'.secrets ==> s'.secrets[n] == s.secrets[n]
  }

  /** What a failed request may leave behind. */
  ghost predicate FailureEffect(s: Store, req: Request, s': Store) {
    match req
    case CreateSecret(_) => s' == s || s' == Serve(s, req).0
    case GetSecret(_) => s' == s
    case UpdateSecret(_) => s' == s || s' == Serve(s, req).0
    case DeleteCollection(sel) => PartlyDeleted(s, sel, s')
  }

  ghost predicate Responds(reliable: bool, s: Store, req: Request, resp: Response, s': Store) {
    || Serve(s, req) == (s', resp)
    || (!reliable && resp == Failed && FailureEffect(s, req, s'))
  }

  function Names(items: seq<Secret>): (names: seq<string>)
    ensures |names| == |items| && forall i :: 0 <= i < |items| ==> names[i] == items[i].name
  {
    seq(|items|, i requires 0 <= i < |items| => items[i].name)
  }

  /** `items` is a listing of the selected Secrets, each once, in some order. */
  ghost predicate Lists(s: Store, sel: Selector, items: seq<Secret>) {
    && (forall i :: 0 <= i < |items| ==> items[i].name in Selected(s, sel) && items[i] == s.secrets[items[i].name])
    && (forall i, j :: 0 <= i < j < |items| ==> items[i].name != items[j].name)
    && (forall n :: n in Selected(s, sel) ==> n in Names(items))
  }

  /** The server itself.  When it is not reliable, each call may fail in any of the ways above. */
  class ApiServer {
    const reliable: bool
    var store: Store

    ghost predicate Valid() reads this {
      WellNamed(store)
    }

    constructor (reliable: bool)
      ensures Valid() && this.reliable == reliable && store == Store(map[], 0)
    {
      this.reliable := reliable;
      store := Store(map[], 0);
    }

    method Create(x: Secret) returns (resp: Response)
      requires Valid()
      modifies this`store
      ensures Valid()
      ensures Responds(reliable, old(store), CreateSecret(x), resp, store)
    {
      var fails, applied := *, *;
      if reliable || !fails || applied {
        var (after, answer) := Serve(store, CreateSecret(x));
        store, resp := after, answer;
      }
      if !reliable && fails {
        resp := Failed;
      }
    }

    method Get(name: string) returns (resp: Response)
      requires Valid()
      ensures Responds(reliable, store, GetSecret(name), resp, store)
    {
      var fails := *;
      if !reliable && fails {
        resp := Failed;
      } else {
        resp := Serve(store, GetSecret(name)).1;
      }
    }

    method Update(x: Secret) returns (resp: Response)
      requires Valid()
      modifies this`store
      ensures Valid()
      ensures Responds(reliable, old(store), UpdateSecret(x), resp, store)
    {
      var fails, applied := *, *;
      if reliable || !fails || applied {
        var (after, answer) := Serve(store, UpdateSecret(x));
        store, resp := after, answer;
      }
      if !reliable && fails {
        resp := Failed;
      }
    }

    method DeleteAll(sel: Selector) returns (resp: Response)
      requires Valid()
      modifies this`store
      ensures Valid()
      ensures Responds(reliable, old(store), DeleteCollection(sel), resp, store)
    {
      var fails := *;
      if !reliable && fails {
        var gone := *;
        store := Without(store, Selected(store, sel) * gone);
        resp := Failed;
      } else {
        store := Without(store, Selected(store, sel));
        resp := Deleted;
      }
    }

    method List(sel: Selector) returns (items: Option<seq<Secret>>)
      requires Valid()
      ensures reliable ==> items.Some?
      ensures items.Some? ==> Lists(store, sel, items.value)
    {
      var fails := *;
      if !reliable && fails {
        return None;
      }
      var left := Selected(store, sel);
      var found: seq<Secret> := [];
      while left != {}
        invariant left <= Selected(store, sel)
        invariant forall i :: 0 <= i < |found| ==>
          found[i].name in Selected(store, sel) - left && found[i] == store.secrets[found[i].name]
        invariant forall i, j :: 0 <= i < j < |found| ==> found[i].name != found[j].name
        invariant forall n :: n in Selected(store, sel) ==> n in left || n in Names(found)
      {
        var n :| n in left;
        assert Names(found + [store.secrets[n]]) == Names(found) + [n];
        found := found + [store.secrets[n]];
        left := left - {n};
      }
      return Some(found);
    }
  }
}
