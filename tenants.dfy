/**
 * The tenant table (multitenant.go): one database handle per configured tenant and a
 * routing table from domain names to those handles. Opening and closing a handle are
 * done by the SQL driver; their outcomes are given as inputs.
 */
module Tenants {
  import opened Wrappers
  import opened Env
  import opened Seqs

  /** One tenant of the configuration (`Tenant`). */
  datatype Tenant = Tenant(url: string, maxConnections: int, idleConnections: int, domains: seq<string>)

  /** What the driver answers when a handle is opened (`sql.Open`, then `Ping`). */
  datatype OpenOutcome = Connected | OpenFails | PingFails

  /** The domain that `Get` falls back to. */
  const DefaultDomain: string := "default"

  /** A database handle (`*sql.DB`): its URL, the limits set on it, and whether it was closed. */
  class Conn {
    const url: string
    var maxOpen: Option<int>
    var maxIdle: Option<int>
    var closed: bool

    /** A handle with the driver's default limits. */
    constructor (url: string)
      ensures this.url == url && maxOpen == None && maxIdle == None && !closed
    {
      this.url := url;
      maxOpen := None;
      maxIdle := None;
      closed := false;
    }

    /** `SetMaxOpenConns(n)`. */
    method SetMaxOpen(n: int)
      modifies this
      ensures maxOpen == Some(n) && maxIdle == old(maxIdle) && closed == old(closed)
    {
      maxOpen := Some(n);
    }

    /** `SetMaxIdleConns(n)`. */
    method SetMaxIdle(n: int)
      modifies this
      ensures maxIdle == Some(n) && maxOpen == old(maxOpen) && closed == old(closed)
    {
      maxIdle := Some(n);
    }

    /**
     * `db.Close()`; `fails` is the driver's answer. database/sql marks the handle
     * closed before it closes the underlying connections, so it is closed either way.
     */
    method Close(fails: bool) returns (err: bool)
      modifies this
      ensures closed && err == fails
      ensures maxOpen == old(maxOpen) && maxIdle == old(maxIdle)
    {
      closed := true;
      err := fails;
    }
  }

  /** The limit a configured value sets: only a positive value is applied. */
  function Limit(n: int): (r: Option<int>)
    ensures r.Some? <==> n > 0
    ensures r.Some? ==> r.value == n
  {
    if n > 0 then Some(n) else None
  }

  /**
   * `openSQL`: opens a handle for `url`, applies the positive limits and pings it. A
   * failed open gives no handle; a failed ping gives the handle together with the error.
   */
  method OpenSQL(url: string, maxconn: int, maxidle: int, outcome: OpenOutcome) returns (db: Conn?, err: bool)
    ensures err <==> !outcome.Connected?
    ensures db == null <==> outcome.OpenFails?
    ensures db != null ==> fresh(db) && db.url == url && !db.closed
    ensures db != null ==> db.maxOpen == Limit(maxconn) && db.maxIdle == Limit(maxidle)
  {
    if outcome.OpenFails? {
      return null, true;
    }
    db := new Conn(url);
    if maxconn > 0 {
      db.SetMaxOpen(maxconn);
    }
    if maxidle > 0 {
      db.SetMaxIdle(maxidle);
    }
    err := outcome.PingFails?;
  }

  /** The position of the first tenant whose handle could not be opened, or `|outcomes|`. */
  function FirstFailure(outcomes: seq<OpenOutcome>): (n: nat)
    ensures n <= |outcomes|
    ensures forall k :: 0 <= k < n ==> outcomes[k].Connected?
    ensures n < |outcomes| ==> !outcomes[n].Connected?
  {
    if outcomes == [] || !outcomes[0].Connected? then 0
    else 1 + FirstFailure(outcomes[1..])
  }

  /** The position of the first handle whose close failed, or `|fails|`. */
  function FirstTrue(fails: seq<bool>): (n: nat)
    ensures n <= |fails|
    ensures forall k :: 0 <= k < n ==> !fails[k]
    ensures n < |fails| ==> fails[n]
  {
    if fails == [] || fails[0] then 0
    else 1 + FirstTrue(fails[1..])
  }

  /** `m` after the writes `m[d] = k` for each `d` of `ds`, in order. */
  function Assign(m: map<string, nat>, ds: seq<string>, k: nat): map<string, nat>
  {
    if ds == [] then m
    else Assign(m, ds[..|ds| - 1], k)[ds[|ds| - 1] := k]
  }

  /**
   * For each domain, the position of the tenant whose handle it is routed to after the
   * loop of `OpenTenants` has run over `ts`.
   */
  function DomainIndex(ts: seq<Tenant>): map<string, nat>
  {
    if ts == [] then map[]
    else Assign(DomainIndex(ts[..|ts| - 1]), ts[|ts| - 1].domains, |ts| - 1)
  }

  /** Writing `k` for each domain of `ds`: those domains now hold `k`, the others are kept. */
  lemma {:induction false} AssignSpec(m: map<string, nat>, ds: seq<string>, k: nat, d: string)
    ensures d in Assign(m, ds, k) <==> d in m || d in ds
    ensures d in ds ==> Assign(m, ds, k)[d] == k
    ensures d !in ds && d in m ==> Assign(m, ds, k)[d] == m[d]
  {
    if ds != [] {
      AssignSpec(m, ds[..|ds| - 1], k, d);
      assert ds == ds[..|ds| - 1] + [ds[|ds| - 1]];
    }
  }

  /**
   * Last write wins: a domain is routed exactly when some tenant lists it, and then to
   * the last tenant that lists it.
   */
  lemma {:induction false} DomainIndexSpec(ts: seq<Tenant>, d: string)
    ensures d in DomainIndex(ts) <==> exists k :: 0 <= k < |ts| && d in ts[k].domains
    ensures d in DomainIndex(ts) ==>
      var k := DomainIndex(ts)[d];
      k < |ts| && d in ts[k].domains && forall k' :: k < k' < |ts| ==> d !in ts[k'].domains
  {
    if ts != [] {
      var init := ts[..|ts| - 1];
      var last := |ts| - 1;
      DomainIndexSpec(init, d);
      AssignSpec(DomainIndex(init), ts[last].domains, last, d);
      if d in DomainIndex(ts) && d !in ts[last].domains {
        var k := DomainIndex(init)[d];
        assert ts[k] == init[k];
      }
      if exists k :: 0 <= k < |ts| && d in ts[k].domains {
        var k :| 0 <= k < |ts| && d in ts[k].domains;
        if k < last {
          assert init[k] == ts[k];
        }
      }
    }
  }

  /** The position of the tenant `Get(d)` answers with, if any: `d`'s own, or that of "default". */
  function TenantFor(ts: seq<Tenant>, d: string): Option<nat>
  {
    var idx := DomainIndex(ts);
    if d in idx then Some(idx[d])
    else if DefaultDomain in idx then Some(idx[DefaultDomain])
    else None
  }

  /**
   * `Get` in terms of the configuration: a listed domain goes to the last tenant listing
   * it; any other domain goes to the last tenant listing "default", or to no handle.
   */
  lemma TenantForSpec(ts: seq<Tenant>, d: string)
    ensures TenantFor(ts, d).Some? ==> TenantFor(ts, d).value < |ts|
    ensures (exists k :: 0 <= k < |ts| && d in ts[k].domains) ==>
      TenantFor(ts, d).Some? && d in ts[TenantFor(ts, d).value].domains
    ensures (forall k :: 0 <= k < |ts| ==> d !in ts[k].domains) ==>
      TenantFor(ts, d) == TenantFor(ts, DefaultDomain)
    ensures TenantFor(ts, d).None? <==>
      forall k :: 0 <= k < |ts| ==> d !in ts[k].domains && DefaultDomain !in ts[k].domains
  {
    DomainIndexSpec(ts, d);
    DomainIndexSpec(ts, DefaultDomain);
  }

  /** The handles in `conns` are pairwise different objects. */
  predicate Distinct(conns: seq<Conn>)
  {
    forall i, j :: 0 <= i < j < |conns| ==> conns[i] != conns[j]
  }

  /** `domains` routes every domain of `idx`, and only those, to the handle at its position. */
  predicate Routes(domains: map<string, Conn>, conns: seq<Conn>, idx: map<string, nat>)
  {
    domains.Keys == idx.Keys && forall d :: d in idx ==> idx[d] < |conns| && domains[d] == conns[idx[d]]
  }

  /** The opened handles and the routing table (`MDB`). */
  class MDB {
    var conns: seq<Conn>
    var domains: map<string, Conn>

    constructor (conns: seq<Conn>, domains: map<string, Conn>)
      ensures this.conns == conns && this.domains == domains
    {
      this.conns := conns;
      this.domains := domains;
    }

    /** Each handle appears once. */
    predicate Valid()
      reads this
    {
      Distinct(conns)
    }

    /** `Get(domain)`: the handle routed to `domain`, else the one routed to "default", else nil. */
    function Get(domain: string): (db: Option<Conn>)
      reads this
      ensures db.Some? ==> db.value in domains.Values
      ensures db.None? <==> domain !in domains && DefaultDomain !in domains
      ensures domain in domains ==> db == Some(domains[domain])
      ensures domain !in domains && DefaultDomain in domains ==> db == Some(domains[DefaultDomain])
    {
      if domain in domains then Some(domains[domain])
      else if DefaultDomain in domains then Some(domains[DefaultDomain])
      else None
    }

    /** `Close()`: closes the handles in order and stops at the first that reports an error. */
    method Close(fails: seq<bool>) returns (err: bool)
      requires Valid() && |fails| == |conns|
      modifies set k | 0 <= k < |conns| :: conns[k]
      ensures err == (FirstTrue(fails) < |conns|)
      ensures forall k :: 0 <= k < |conns| ==>
        conns[k].closed == (k <= FirstTrue(fails) || old(conns[k].closed))
      ensures forall k :: 0 <= k < |conns| ==>
        conns[k].maxOpen == old(conns[k].maxOpen) && conns[k].maxIdle == old(conns[k].maxIdle)
    {
      err := CloseAll(conns, fails);
    }
  }

  /** The loop of `Close` over the handles `conns`. */
  method CloseAll(conns: seq<Conn>, fails: seq<bool>) returns (err: bool)
    requires Distinct(conns) && |fails| == |conns|
    modifies set k | 0 <= k < |conns| :: conns[k]
    ensures err == (FirstTrue(fails) < |conns|)
    ensures forall k :: 0 <= k < |conns| ==>
      conns[k].closed == (k <= FirstTrue(fails) || old(conns[k].closed))
    ensures forall k :: 0 <= k < |conns| ==>
      conns[k].maxOpen == old(conns[k].maxOpen) && conns[k].maxIdle == old(conns[k].maxIdle)
  {
    var i := 0;
    while i < |conns|
      invariant 0 <= i <= |conns| && i <= FirstTrue(fails)
      invariant forall k :: 0 <= k < |conns| ==> conns[k].closed == (k < i || old(conns[k].closed))
      invariant forall k :: 0 <= k < |conns| ==>
        conns[k].maxOpen == old(conns[k].maxOpen) && conns[k].maxIdle == old(conns[k].maxIdle)
    {
      var e := conns[i].Close(fails[i]);
      if e {
        return true;
      }
      i := i + 1;
    }
    return false;
  }

  /** `db` is the open handle for tenant `t`: at its expanded URL, with its positive limits. */
  predicate OpenedFor(db: Conn, t: Tenant, env: Environment, files: Files)
    reads db
  {
    !db.closed && db.url == EvaluateEnv(t.url, env, files)
    && db.maxOpen == Limit(t.maxConnections) && db.maxIdle == Limit(t.idleConnections)
  }

  /**
   * `OpenTenants(tenants)`: opens one handle per tenant, in order, at the URL with its
   * placeholders expanded, and routes the tenant's domains to it. `outcomes[k]` is the
   * driver's answer for tenant `k`. At the first failure the error is returned together
   * with what was built for the tenants before it.
   */
  method OpenTenants(tenants: seq<Tenant>, env: Environment, files: Files, outcomes: seq<OpenOutcome>)
    returns (mdb: MDB, err: bool)
    requires |outcomes| == |tenants|
    ensures fresh(mdb) && mdb.Valid()
    ensures err == (FirstFailure(outcomes) < |tenants|)
    ensures |mdb.conns| == FirstFailure(outcomes)
    ensures forall k :: 0 <= k < |mdb.conns| ==> fresh(mdb.conns[k]) && OpenedFor(mdb.conns[k], tenants[k], env, files)
    ensures Routes(mdb.domains, mdb.conns, DomainIndex(tenants[..FirstFailure(outcomes)]))
  {
    var conns: seq<Conn> := [];
    var domains: map<string, Conn> := map[];
    var i := 0;
    while i < |tenants|
      invariant 0 <= i <= |tenants| && i <= FirstFailure(outcomes) && |conns| == i
      invariant Distinct(conns)
      invariant forall k :: 0 <= k < i ==> fresh(conns[k]) && OpenedFor(conns[k], tenants[k], env, files)
      invariant Routes(domains, conns, DomainIndex(tenants[..i]))
    {
      var db, e := OpenSQL(EvaluateEnv(tenants[i].url, env, files), tenants[i].maxConnections,
                           tenants[i].idleConnections, outcomes[i]);
      if e {
        mdb := new MDB(conns, domains);
        return mdb, true;
      }
      conns, domains := Register(conns, domains, tenants, i, db);
      i := i + 1;
    }
    TakeAll(tenants);
    mdb := new MDB(conns, domains);
    return mdb, false;
  }

  /**
   * `Get` on a table that routes as the loop of `OpenTenants` does over `ts`: it answers
   * with the handle of the tenant `TenantFor` picks, and with none exactly when that
   * picks none.
   */
  lemma GetFollowsTenants(mdb: MDB, ts: seq<Tenant>, d: string)
    requires Routes(mdb.domains, mdb.conns, DomainIndex(ts))
    ensures mdb.Get(d).None? <==> TenantFor(ts, d).None?
    ensures TenantFor(ts, d).Some? ==>
      TenantFor(ts, d).value < |mdb.conns| && mdb.Get(d) == Some(mdb.conns[TenantFor(ts, d).value])
  {
    var idx := DomainIndex(ts);
    assert d in mdb.domains <==> d in idx;
    assert DefaultDomain in mdb.domains <==> DefaultDomain in idx;
  }

  /** Appends the handle `db` opened for tenant `i` and routes that tenant's domains to it. */
  method Register(conns: seq<Conn>, domains: map<string, Conn>, tenants: seq<Tenant>, i: nat, db: Conn)
    returns (conns': seq<Conn>, domains': map<string, Conn>)
    requires i < |tenants| && |conns| == i && db !in conns && Distinct(conns)
    requires Routes(domains, conns, DomainIndex(tenants[..i]))
    ensures conns' == conns + [db] && Distinct(conns')
    ensures Routes(domains', conns', DomainIndex(tenants[..i + 1]))
  {
    conns' := conns + [db];
    domains' := AddDomains(domains, conns', DomainIndex(tenants[..i]), tenants[i].domains, i);
    TakeTake(tenants, i);
  }

  /** The inner loop of `OpenTenants`: routes each domain of `ds` to the handle at `k`. */
  method AddDomains(domains: map<string, Conn>, conns: seq<Conn>, ghost idx: map<string, nat>, ds: seq<string>, k: nat)
    returns (r: map<string, Conn>)
    requires k < |conns| && Routes(domains, conns, idx)
    ensures Routes(r, conns, Assign(idx, ds, k))
  {
    r := domains;
    var j := 0;
    while j < |ds|
      invariant 0 <= j <= |ds|
      invariant Routes(r, conns, Assign(idx, ds[..j], k))
    {
      TakeTake(ds, j);
      r := r[ds[j] := conns[k]];
      j := j + 1;
    }
    TakeAll(ds);
  }
}
