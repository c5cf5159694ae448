/** Where a project's tenant data lives, and the short-lived cache of that answer. */
module TenantRoutes {
  import opened Prelude
  import opened TenantKeys

  type Time = int       // milliseconds
  type ProjectId = string

  /** A row of runner_get_tenant_db; columns may be null. */
  datatype DbRow = DbRow(state: string, id: Option<string>, host: Option<string>, port: Option<nat>, database: Option<string>)

  datatype Route = Shared | Dedicated(target: Target) | NotReady(state: string)

  /** The source's truthiness: neither null nor empty. */
  predicate Given(s: Option<string>) {
    s.Some? && s.value != ""
  }

  /** The first row decides. */
  function RouteFromRows(rows: seq<DbRow>): Route {
    if rows == [] then Shared
    else
      var row := rows[0];
      if row.state != "active" || !Given(row.id) || !Given(row.host) || row.port.GetOr(0) == 0 || !Given(row.database)
      then NotReady(row.state)
      else Dedicated(Target(row.id.value, row.host.value, row.port.value, row.database.value))
  }

  const MAX_ENTRIES := 10_000

  datatype Cached = Cached(route: Route, at: Time)

  /** What some lookup answered, and when. */
  datatype Answer = Answer(project: ProjectId, route: Route, at: Time)

  class RouteCache {
    const ttl: Time
    var entries: map<ProjectId, Cached>
    ghost var answers: set<Answer>

    /** Everything cached is what a lookup answered for that project at that time, and was ready. */
    ghost predicate Valid()
      reads this
    {
      && |entries| <= MAX_ENTRIES
      && forall p | p in entries :: !entries[p].route.NotReady? && Answer(p, entries[p].route, entries[p].at) in answers
    }

    constructor (ttl: Time)
      ensures Valid() && entries == map[] && answers == {} && this.ttl == ttl
    {
      this.ttl := ttl;
      entries, answers := map[], {};
    }

    /** The first half of get: a hit is the answer of a lookup less than the ttl ago. */
    method Peek(p: ProjectId, now: Time) returns (hit: Option<Route>)
      requires Valid()
      ensures hit.Some? <==> p in entries && now - entries[p].at < ttl
      ensures hit.Some? ==> !hit.value.NotReady? && exists a :: a in answers && a.project == p && a.route == hit.value && now - a.at < ttl
    {
      if p in entries && now - entries[p].at < ttl {
        assert Answer(p, entries[p].route, entries[p].at) in answers;
        return Some(entries[p].route);
      }
      return None;
    }

    /** The second half, when a lookup has answered: other calls may have answered meanwhile. A
        project without a row is on the shared cluster; one with a row is routed to that row's
        instance, exactly when it is active and completely known, and otherwise nowhere. */
    method Put(p: ProjectId, rows: seq<DbRow>, now: Time) returns (route: Route)
      requires Valid()
      modifies this
      ensures Valid()
      ensures route.Shared? <==> rows == []
      ensures route.Dedicated? <==>
        && rows != [] && rows[0].state == "active" && rows[0].port.Some? && rows[0].port.value > 0
        && forall s | s in {rows[0].id, rows[0].host, rows[0].database} :: s.Some? && s.value != ""
      ensures route.Dedicated? ==>
        rows[0] == DbRow("active", Some(route.target.id), Some(route.target.host), Some(route.target.port), Some(route.target.database))
      ensures route.NotReady? ==> route.state == rows[0].state
      ensures answers == old(answers) + {Answer(p, route, now)}
      ensures if route.NotReady? then entries == old(entries)
              else entries == old(entries)[p := Cached(route, now)] || entries == map[]
      ensures entries == map[] && !route.NotReady? ==> |old(entries)[p := Cached(route, now)]| > MAX_ENTRIES
    {
      route := RouteFromRows(rows);
      answers := answers + {Answer(p, route, now)};
      if !route.NotReady? {
        entries := entries[p := Cached(route, now)];
      }
      if |entries| > MAX_ENTRIES {
        entries := map[];
      }
    }
  }
}
