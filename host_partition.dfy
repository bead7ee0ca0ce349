/**
 * createOrUpdateHostsThen: one host object per address of the server form,
 * then a split of those objects against the servers the API already knows:
 * new addresses are POSTed, known undeployed ones are PUT, the rest are
 * reported back unchanged.
 */
module HostPartition {
  import opened Wrappers

  /** The server form: a list of addresses and the remaining properties. */
  datatype ServerForm<V> = ServerForm(address: seq<string>, properties: map<string, V>)

  /** One host object, for one address. */
  datatype HostObject<V> = HostObject(address: string, properties: map<string, V>)

  /** A server record returned by the API. */
  datatype Server = Server(address: string, state: string)

  /** {host: server} */
  datatype HostEntry = HostEntry(host: Server)

  /** What hostWorkerThen does: resolve to {} at once, or send the objects to /host. */
  datatype WorkerCall<V> =
    | ResolvedEmpty
    | HostRequest(verb: string, path: string, objects: seq<HostObject<V>>)

  // ---- sequence filtering ------------------------------------------------

  function Filter<T>(xs: seq<T>, p: T -> bool): (r: seq<T>)
    ensures |r| <= |xs|
    decreases |xs|
  {
    if xs == [] then []
    else (if p(xs[0]) then [xs[0]] else []) + Filter(xs[1..], p)
  }

  /** The filter keeps exactly the elements that satisfy the predicate. */
  lemma {:induction false} FilterMember<T>(xs: seq<T>, p: T -> bool, x: T)
    ensures x in Filter(xs, p) <==> x in xs && p(x)
    decreases |xs|
  {
    if xs != [] {
      FilterMember(xs[1..], p, x);
      assert xs == [xs[0]] + xs[1..];
    }
  }

  lemma {:induction false} FilterAgrees<T>(xs: seq<T>, p: T -> bool, q: T -> bool)
    requires forall x :: x in xs ==> p(x) == q(x)
    ensures Filter(xs, p) == Filter(xs, q)
    decreases |xs|
  {
    if xs != [] { FilterAgrees(xs[1..], p, q); }
  }

  lemma {:induction false} FilterTwice<T>(xs: seq<T>, p: T -> bool, q: T -> bool, both: T -> bool)
    requires forall x :: x in xs ==> both(x) == (p(x) && q(x))
    ensures Filter(Filter(xs, p), q) == Filter(xs, both)
    decreases |xs|
  {
    if xs != [] {
      var x0, rest := xs[0], xs[1..];
      assert forall x :: x in rest ==> x in xs;
      FilterTwice(rest, p, q, both);
      assert x0 in xs;
      var tail := if both(x0) then [x0] else [];
      assert Filter(xs, both) == tail + Filter(rest, both);
      if p(x0) {
        var once := Filter(xs, p);
        assert once == [x0] + Filter(rest, p);
        assert once[0] == x0 && once[1..] == Filter(rest, p);
        assert Filter(once, q) == tail + Filter(Filter(rest, p), q);
      } else {
        assert Filter(xs, p) == Filter(rest, p);
      }
    }
  }

  /** _.difference(xs, ys): the elements of xs, in order, that are not in ys. */
  function Difference<T(==)>(xs: seq<T>, ys: seq<T>): seq<T> {
    Filter(xs, NotIn(ys))
  }

  function NotIn<T(==)>(ys: seq<T>): T -> bool {
    x => x !in ys
  }

  // ---- building the host objects (:36-40) --------------------------------

  function Omit<V>(properties: map<string, V>): (r: map<string, V>)
    ensures r.Keys == properties.Keys - {"address", "pdsh"}
    ensures forall k :: k in r ==> r[k] == properties[k]
  {
    properties - {"address", "pdsh"}
  }

  /**
   * The reduce over server.address: for each address in order, the form
   * without its address and pdsh properties, extended with that one address.
   */
  function Objects<V>(server: ServerForm<V>): (r: seq<HostObject<V>>)
    ensures |r| == |server.address|
    ensures forall i :: 0 <= i < |r| ==>
      r[i].address == server.address[i] && r[i].properties == Omit(server.properties)
  {
    seq(|server.address|, i requires 0 <= i < |server.address| => HostObject(server.address[i], Omit(server.properties)))
  }

  method BuildObjects<V>(server: ServerForm<V>) returns (objects: seq<HostObject<V>>)
    ensures objects == Objects(server)
  {
    objects := [];
    for i := 0 to |server.address|
      invariant |objects| == i
      invariant forall j :: 0 <= j < i ==>
        objects[j].address == server.address[j] && objects[j].properties == Omit(server.properties)
    {
      objects := objects + [HostObject(server.address[i], Omit(server.properties))];
    }
    assert objects == Objects(server);
  }

  // ---- the split (:47-57) ------------------------------------------------

  /** _.find(servers, {address: a}): the first server with that address. */
  function FindByAddress(servers: seq<Server>, a: string): (r: Option<Server>)
    ensures r.Some? ==> r.value in servers && r.value.address == a
    ensures r.None? <==> forall s :: s in servers ==> s.address != a
    ensures r.Some? ==> exists k :: (0 <= k < |servers| && servers[k] == r.value
      && forall j :: 0 <= j < k ==> servers[j].address != a)
    decreases |servers|
  {
    if servers == [] then None
    else if servers[0].address == a then Some(servers[0])
    else
      var r := FindByAddress(servers[1..], a);
      if r.Some? then
        var k :| 0 <= k < |servers[1..]| && servers[1..][k] == r.value
          && forall j :: 0 <= j < k ==> servers[1..][j].address != a;
        assert servers[k + 1] == r.value;
        r
      else r
  }

  predicate IsNew<V>(servers: seq<Server>, o: HostObject<V>) {
    FindByAddress(servers, o.address).None?
  }

  predicate IsUndeployed<V>(servers: seq<Server>, o: HostObject<V>) {
    var s := FindByAddress(servers, o.address);
    s.Some? && s.value.state == "undeployed"
  }

  function Unknown<V>(servers: seq<Server>): HostObject<V> -> bool {
    o => IsNew(servers, o)
  }

  function Undeployed<V>(servers: seq<Server>): HostObject<V> -> bool {
    o => IsUndeployed(servers, o)
  }

  function ToPost<V(==)>(objects: seq<HostObject<V>>, servers: seq<Server>): seq<HostObject<V>> {
    Filter(objects, Unknown(servers))
  }

  function ToPut<V(==)>(objects: seq<HostObject<V>>, servers: seq<Server>): seq<HostObject<V>> {
    Filter(Difference(objects, ToPost(objects, servers)), Undeployed(servers))
  }

  function Leftovers<V(==)>(objects: seq<HostObject<V>>, servers: seq<Server>): seq<HostObject<V>> {
    Difference(objects, ToPut(objects, servers) + ToPost(objects, servers))
  }

  /** The independent description of the split: what each object's address says about it. */
  datatype Action = Post | Put | Unchanged

  function ActionFor<V>(servers: seq<Server>, o: HostObject<V>): Action {
    match FindByAddress(servers, o.address)
    case None => Post
    case Some(s) => if s.state == "undeployed" then Put else Unchanged
  }

  function ActionOf<V>(servers: seq<Server>): HostObject<V> -> Action {
    o => ActionFor(servers, o)
  }

  /** The elements that `classify` sends to branch `a`. */
  function Is<T>(classify: T -> Action, a: Action): T -> bool {
    x => classify(x) == a
  }

  function Takes<V>(servers: seq<Server>, a: Action): HostObject<V> -> bool {
    Is(ActionOf(servers), a)
  }

  /**
   * toPost, toPut and leftovers are exactly the objects, in order, whose
   * address is unknown, known and undeployed, and known otherwise.
   */
  lemma PostByAction<V>(objects: seq<HostObject<V>>, servers: seq<Server>)
    ensures ToPost(objects, servers) == Filter(objects, Takes(servers, Post))
  {
    FilterAgrees(objects, Unknown(servers), Takes(servers, Post));
  }

  lemma PutByAction<V>(objects: seq<HostObject<V>>, servers: seq<Server>)
    ensures ToPut(objects, servers) == Filter(objects, Takes(servers, Put))
  {
    var post := ToPost(objects, servers);
    forall x | x in objects
      ensures Takes(servers, Put)(x) == (NotIn(post)(x) && Undeployed(servers)(x))
    {
      FilterMember(objects, Unknown(servers), x);
    }
    FilterTwice(objects, NotIn(post), Undeployed(servers), Takes(servers, Put));
  }

  lemma LeftoversByAction<V>(objects: seq<HostObject<V>>, servers: seq<Server>)
    ensures Leftovers(objects, servers) == Filter(objects, Takes(servers, Unchanged))
  {
    var post := ToPost(objects, servers);
    var put := ToPut(objects, servers);
    PostByAction(objects, servers);
    PutByAction(objects, servers);
    forall x | x in objects
      ensures NotIn(put + post)(x) == Takes(servers, Unchanged)(x)
    {
      FilterMember(objects, Takes(servers, Post), x);
      FilterMember(objects, Takes(servers, Put), x);
    }
    FilterAgrees(objects, NotIn(put + post), Takes(servers, Unchanged));
  }

  lemma {:induction false} FilterSplitsThreeWays<T>(xs: seq<T>, classify: T -> Action)
    ensures multiset(Filter(xs, Is(classify, Post))) + multiset(Filter(xs, Is(classify, Put)))
      + multiset(Filter(xs, Is(classify, Unchanged))) == multiset(xs)
    decreases |xs|
  {
    if xs != [] {
      var x0, rest := xs[0], xs[1..];
      var post, put, left := Is(classify, Post), Is(classify, Put), Is(classify, Unchanged);
      FilterSplitsThreeWays(rest, classify);
      assert multiset(xs) == multiset{x0} + multiset(rest) by {
        assert xs == [x0] + rest;
      }
      assert Filter(xs, post) == (if post(x0) then [x0] else []) + Filter(rest, post);
      assert Filter(xs, put) == (if put(x0) then [x0] else []) + Filter(rest, put);
      assert Filter(xs, left) == (if left(x0) then [x0] else []) + Filter(rest, left);
      assert post(x0) == (classify(x0) == Post);
      assert put(x0) == (classify(x0) == Put);
      assert left(x0) == (classify(x0) == Unchanged);
    }
  }

  /**
   * The three groups are pairwise disjoint and together hold every object,
   * each as often as it occurs.
   */
  lemma SplitIsPartition<V>(objects: seq<HostObject<V>>, servers: seq<Server>)
    ensures var post, put, left := ToPost(objects, servers), ToPut(objects, servers), Leftovers(objects, servers);
      && multiset(post) + multiset(put) + multiset(left) == multiset(objects)
      && (forall o :: o in post ==> o !in put && o !in left)
      && (forall o :: o in put ==> o !in left)
  {
    PostByAction(objects, servers);
    PutByAction(objects, servers);
    LeftoversByAction(objects, servers);
    FilterSplitsThreeWays(objects, ActionOf(servers));
    var post, put, left := ToPost(objects, servers), ToPut(objects, servers), Leftovers(objects, servers);
    forall o | o in post
      ensures o !in put && o !in left
    {
      FilterMember(objects, Takes(servers, Post), o);
      FilterMember(objects, Takes(servers, Put), o);
      FilterMember(objects, Takes(servers, Unchanged), o);
    }
    forall o | o in put
      ensures o !in left
    {
      FilterMember(objects, Takes(servers, Put), o);
      FilterMember(objects, Takes(servers, Unchanged), o);
    }
  }

  // ---- unchangedServers (:58-70) and hostWorkerThen (:106-116) -----------

  predicate HasAddress<V>(objects: seq<HostObject<V>>, a: string) {
    exists i :: 0 <= i < |objects| && objects[i].address == a
  }

  /**
   * servers.filter(address among leftovers).reduce(push {host: server}):
   * the known servers behind the leftovers, in server order, each wrapped.
   */
  method UnchangedServers<V>(servers: seq<Server>, leftovers: seq<HostObject<V>>) returns (objects: seq<HostEntry>)
    ensures objects == Wrapped(Filter(servers, (s: Server) => HasAddress(leftovers, s.address)))
    ensures forall e :: e in objects <==> e.host in servers && HasAddress(leftovers, e.host.address)
  {
    var kept := Filter(servers, (s: Server) => HasAddress(leftovers, s.address));
    objects := [];
    for i := 0 to |kept|
      invariant |objects| == i
      invariant forall j :: 0 <= j < i ==> objects[j] == HostEntry(kept[j])
    {
      objects := objects + [HostEntry(kept[i])];
    }
    assert objects == Wrapped(kept);
    forall e ensures e in objects <==> e.host in servers && HasAddress(leftovers, e.host.address) {
      FilterMember(servers, (s: Server) => HasAddress(leftovers, s.address), e.host);
    }
  }

  function Wrapped(servers: seq<Server>): (r: seq<HostEntry>)
    ensures |r| == |servers| && forall i :: 0 <= i < |r| ==> r[i] == HostEntry(servers[i])
    ensures forall e :: e in r <==> e.host in servers
  {
    seq(|servers|, i requires 0 <= i < |servers| => HostEntry(servers[i]))
  }

  /** hostWorkerThen(spark, method, data) */
  function HostWorker<V>(verb: string, data: seq<HostObject<V>>): (r: WorkerCall<V>)
    ensures r.ResolvedEmpty? <==> |data| == 0
    ensures r.HostRequest? ==> r == HostRequest(verb, "/host", data)
  {
    if |data| == 0 then ResolvedEmpty else HostRequest(verb, "/host", data)
  }

  /**
   * With distinct server addresses, a server reported unchanged is never an
   * undeployed one: those were sent for update.
   */
  lemma UnchangedAreNotUndeployed<V>(objects: seq<HostObject<V>>, servers: seq<Server>, s: Server)
    requires forall i, j :: 0 <= i < j < |servers| ==> servers[i].address != servers[j].address
    requires s in servers && HasAddress(Leftovers(objects, servers), s.address)
    ensures s.state != "undeployed"
  {
    var left := Leftovers(objects, servers);
    LeftoversByAction(objects, servers);
    var i :| 0 <= i < |left| && left[i].address == s.address;
    FilterMember(objects, Takes(servers, Unchanged), left[i]);
    var found := FindByAddress(servers, s.address);
    var k :| 0 <= k < |servers| && servers[k] == found.value;
    var j :| 0 <= j < |servers| && servers[j] == s;
    assert j == k;
  }

  /** The requests and the unchanged report that createOrUpdateHostsThen issues. */
  datatype Plan<V> = Plan(post: WorkerCall<V>, put: WorkerCall<V>, untouched: seq<HostEntry>)

  /** Objects(server) holds exactly one object per address of the form. */
  lemma ObjectsMembership<V>(server: ServerForm<V>, o: HostObject<V>)
    ensures o in Objects(server) <==> o.address in server.address && o.properties == Omit(server.properties)
  {
    var objects := Objects(server);
    if o.address in server.address && o.properties == Omit(server.properties) {
      var i :| 0 <= i < |server.address| && server.address[i] == o.address;
      assert objects[i] == o;
    }
  }

  /** Nothing is POSTed exactly when every address of the form is already known. */
  lemma NothingToPostIffAllKnown<V>(server: ServerForm<V>, servers: seq<Server>)
    ensures ToPost(Objects(server), servers) == [] <==>
      forall a :: a in server.address ==> FindByAddress(servers, a).Some?
  {
    var objects := Objects(server);
    var post := ToPost(objects, servers);
    if post != [] {
      FilterMember(objects, Unknown(servers), post[0]);
      ObjectsMembership(server, post[0]);
    } else {
      forall a | a in server.address
        ensures FindByAddress(servers, a).Some?
      {
        var i :| 0 <= i < |server.address| && server.address[i] == a;
        FilterMember(objects, Unknown(servers), objects[i]);
      }
    }
  }

  /** The PUT body holds, for every known undeployed address of the form, its object. */
  lemma PutHoldsUndeployed<V>(server: ServerForm<V>, servers: seq<Server>, o: HostObject<V>)
    ensures o in ToPut(Objects(server), servers) <==>
      o.address in server.address && o.properties == Omit(server.properties) && ActionFor(servers, o) == Put
  {
    var objects := Objects(server);
    PutByAction(objects, servers);
    ObjectsMembership(server, o);
    FilterMember(objects, Takes(servers, Put), o);
  }

  /**
   * The response handler of createOrUpdateHostsThen, up to the merge of the
   * responses: new addresses are POSTed, known undeployed ones PUT, and the
   * servers behind the rest are reported untouched.
   */
  method CreateOrUpdateHosts<V(==)>(server: ServerForm<V>, servers: seq<Server>) returns (plan: Plan<V>)
    ensures var objects := Objects(server);
      && plan.post == HostWorker("sendPost", ToPost(objects, servers))
      && plan.put == HostWorker("sendPut", ToPut(objects, servers))
      && plan.untouched == Wrapped(Filter(servers, (s: Server) => HasAddress(Leftovers(objects, servers), s.address)))
  {
    var objects := BuildObjects(server);
    var toPost := ToPost(objects, servers);
    var toPut := ToPut(objects, servers);
    var leftovers := Leftovers(objects, servers);
    var untouched := UnchangedServers(servers, leftovers);
    plan := Plan(HostWorker("sendPost", toPost), HostWorker("sendPut", toPut), untouched);
  }
}
