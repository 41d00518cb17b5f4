/** Host and role selection for fabric tasks (prestoadmin/util/fabricapi.py).

    fabric keeps the host list, the excluded hosts, the current host and the
    role table in its global `env`; here they are passed explicitly. Invoking
    the wrapped task `f` is modelled as a returned decision that carries the
    arguments `f` would be called with. */
module FabricApi {
  import opened Wrappers
  import opened Strings

  /** One entry of `env.roledefs`: a role name and the hosts holding it. */
  datatype RoleDef = RoleDef(name: string, hosts: seq<Host>)

  /** `env.roledefs`, in the dictionary's iteration order (its names are distinct,
      as the keys of a dictionary are). */
  type RoleDefs = seq<RoleDef>

  /** What a role-guarded call does on one host: call `f` with `args`, skip it,
      `abort` the run with a message, or raise KeyError for a missing role. */
  datatype Dispatch<A> = Invoke(args: A) | Skip | Abort(message: string) | KeyError(key: string)

  const CoordinatorRole := "coordinator"
  const WorkerRole := "worker"

  /** `get_host_list()`: the hosts of `env.hosts` that are not in
      `env.exclude_hosts`, in their order, duplicates kept. */
  function GetHostList(hosts: seq<Host>, excludeHosts: seq<Host>): (r: seq<Host>)
    ensures |r| <= |hosts|
    ensures forall h :: h in r ==> h in hosts && h !in excludeHosts
    ensures forall h :: h !in excludeHosts ==> multiset(r)[h] == multiset(hosts)[h]
  {
    if hosts == [] then []
    else
      assert hosts == [hosts[0]] + hosts[1..];
      if hosts[0] in excludeHosts then GetHostList(hosts[1..], excludeHosts)
      else [hosts[0]] + GetHostList(hosts[1..], excludeHosts)
  }

  /** The selection works host by host: the selection of a concatenation is the
      concatenation of the selections, so the original order is kept. */
  lemma {:induction false} GetHostListAppend(a: seq<Host>, b: seq<Host>, excludeHosts: seq<Host>)
    ensures GetHostList(a + b, excludeHosts) == GetHostList(a, excludeHosts) + GetHostList(b, excludeHosts)
  {
    if a == [] {
      assert a + b == b;
    } else {
      assert (a + b)[0] == a[0];
      assert (a + b)[1..] == a[1..] + b;
      GetHostListAppend(a[1..], b, excludeHosts);
    }
  }

  /** A single host is kept exactly when it is not excluded; with
      GetHostListAppend this determines the selection of every list. */
  lemma GetHostListSingle(h: Host, excludeHosts: seq<Host>)
    ensures GetHostList([h], excludeHosts) == if h in excludeHosts then [] else [h]
  {
    assert [h][1..] == [];
  }

  /** With nothing excluded, every host is selected. */
  lemma {:induction false} GetHostListNoExclusions(hosts: seq<Host>)
    ensures GetHostList(hosts, []) == hosts
  {
    if hosts != [] {
      GetHostListNoExclusions(hosts[1..]);
    }
  }

  /** Selecting again with the same exclusions changes nothing. */
  lemma {:induction false} GetHostListIdempotent(hosts: seq<Host>, excludeHosts: seq<Host>)
    ensures GetHostList(GetHostList(hosts, excludeHosts), excludeHosts) == GetHostList(hosts, excludeHosts)
  {
    if hosts != [] {
      GetHostListIdempotent(hosts[1..], excludeHosts);
      if hosts[0] !in excludeHosts {
        var rest := GetHostList(hosts[1..], excludeHosts);
        assert ([hosts[0]] + rest)[0] == hosts[0];
        assert ([hosts[0]] + rest)[1..] == rest;
      }
    }
  }

  /** The names of the role table, in order: `env.roledefs.keys()`. */
  function RoleNames(roledefs: RoleDefs): seq<string>
  {
    seq(|roledefs|, i requires 0 <= i < |roledefs| => roledefs[i].name)
  }

  /** `env.roledefs[name]`: the hosts of the first entry with that name, or None
      where Python raises KeyError. */
  function Lookup(roledefs: RoleDefs, name: string): (r: Option<seq<Host>>)
    ensures r.Some? <==> name in RoleNames(roledefs)
    ensures r.Some? ==> exists i :: 0 <= i < |roledefs| && roledefs[i] == RoleDef(name, r.value)
  {
    if roledefs == [] then None
    else if roledefs[0].name == name then
      assert RoleNames(roledefs)[0] == name;
      Some(roledefs[0].hosts)
    else
      var r := Lookup(roledefs[1..], name);
      assert RoleNames(roledefs) == [roledefs[0].name] + RoleNames(roledefs[1..]);
      assert r.Some? ==> exists i :: 0 <= i < |roledefs| && roledefs[i] == RoleDef(name, r.value) by {
        if r.Some? {
          var i :| 0 <= i < |roledefs[1..]| && roledefs[1..][i] == RoleDef(name, r.value);
          assert roledefs[i + 1] == RoleDef(name, r.value);
        }
      }
      r
  }

  /** `get_coordinator_role()`: `env.roledefs['coordinator']`. */
  function GetCoordinatorRole(roledefs: RoleDefs): (r: Option<seq<Host>>)
    ensures r.Some? <==> CoordinatorRole in RoleNames(roledefs)
    ensures r.Some? ==> RoleDef(CoordinatorRole, r.value) in roledefs
  {
    Lookup(roledefs, CoordinatorRole)
  }

  /** `get_worker_role()`: `env.roledefs['worker']`. */
  function GetWorkerRole(roledefs: RoleDefs): (r: Option<seq<Host>>)
    ensures r.Some? <==> WorkerRole in RoleNames(roledefs)
    ensures r.Some? ==> RoleDef(WorkerRole, r.value) in roledefs
  {
    Lookup(roledefs, WorkerRole)
  }

  /** The text `abort` is given for an unknown role name. */
  function InvalidRoleMessage(rolename: string, roledefs: RoleDefs): (m: string)
    ensures StartsWith(m, "Invalid role name " + rolename + ". Valid rolenames are ")
    ensures forall k :: 0 <= k < |roledefs| ==> Contains(m, Repr(roledefs[k].name))
  {
    var prefix := "Invalid role name " + rolename + ". Valid rolenames are ";
    var names := RoleNames(roledefs);
    assert forall k :: 0 <= k < |roledefs| ==> Contains(prefix + ReprList(names), Repr(roledefs[k].name)) by {
      forall k | 0 <= k < |roledefs| ensures Contains(prefix + ReprList(names), Repr(roledefs[k].name)) {
        assert names[k] == roledefs[k].name;
        ContainsWithin(prefix, ReprList(names), "", Repr(names[k]));
        assert prefix + ReprList(names) + "" == prefix + ReprList(names);
      }
    }
    assert (prefix + ReprList(names))[..|prefix|] == prefix;
    prefix + ReprList(names)
  }

  /** `by_rolename(host, rolename, f, *args)`: with no role name `f` always runs;
      an unknown role name aborts, listing the valid names, and `f` does not
      run; otherwise `f` runs exactly when `host` holds the role. */
  function ByRolename<A>(host: Host, rolename: Option<string>, roledefs: RoleDefs, args: A): (d: Dispatch<A>)
    ensures rolename.None? ==> d == Invoke(args)
    ensures rolename.Some? && rolename.value !in RoleNames(roledefs) ==>
              d == Abort(InvalidRoleMessage(rolename.value, roledefs))
    ensures rolename.Some? && rolename.value in RoleNames(roledefs) ==>
              (d == Invoke(args) <==> host in Lookup(roledefs, rolename.value).value) &&
              (d == Skip <==> host !in Lookup(roledefs, rolename.value).value)
    ensures d.Invoke? ==> d.args == args
  {
    match rolename
    case None => Invoke(args)
    case Some(name) =>
      match Lookup(roledefs, name)
      case None => Abort(InvalidRoleMessage(name, roledefs))
      case Some(members) => if host in members then Invoke(args) else Skip
  }

  /** `task_by_rolename(rolename)(f)(*args)`: the wrapper hands `env.host`, the role
      name and the arguments unchanged to `by_rolename`; it returns None, so the
      only observable outcome is the dispatch. */
  function TaskByRolename<A>(rolename: Option<string>, envHost: Host, roledefs: RoleDefs, args: A): (d: Dispatch<A>)
    ensures d == ByRolename(envHost, rolename, roledefs, args)
    ensures d.Invoke? ==> d.args == args
  {
    ByRolename(envHost, rolename, roledefs, args)
  }

  /** `by_role_coordinator(host, f, *args)`: `f` runs exactly when `host` is in the
      coordinator role; a table without that role raises KeyError. */
  function ByRoleCoordinator<A>(host: Host, roledefs: RoleDefs, args: A): (d: Dispatch<A>)
    ensures CoordinatorRole !in RoleNames(roledefs) ==> d == KeyError(CoordinatorRole)
    ensures CoordinatorRole in RoleNames(roledefs) ==>
              (d == Invoke(args) <==> host in GetCoordinatorRole(roledefs).value) &&
              (d == Skip <==> host !in GetCoordinatorRole(roledefs).value)
  {
    match GetCoordinatorRole(roledefs)
    case None => KeyError(CoordinatorRole)
    case Some(coordinators) => if host in coordinators then Invoke(args) else Skip
  }

  /** `by_role_worker(host, f, *args)`: `f` runs exactly when `host` is in the
      worker role and not in the coordinator role. The coordinator role is only
      looked up for hosts in the worker role (Python's `and` short-circuits). */
  function ByRoleWorker<A>(host: Host, roledefs: RoleDefs, args: A): (d: Dispatch<A>)
    ensures WorkerRole !in RoleNames(roledefs) ==> d == KeyError(WorkerRole)
    ensures WorkerRole in RoleNames(roledefs) && host !in GetWorkerRole(roledefs).value ==> d == Skip
    ensures WorkerRole in RoleNames(roledefs) && host in GetWorkerRole(roledefs).value ==>
              if CoordinatorRole !in RoleNames(roledefs) then d == KeyError(CoordinatorRole)
              else (d == Invoke(args) <==> host !in GetCoordinatorRole(roledefs).value) &&
                   (d == Skip <==> host in GetCoordinatorRole(roledefs).value)
  {
    match GetWorkerRole(roledefs)
    case None => KeyError(WorkerRole)
    case Some(workers) =>
      if host !in workers then Skip
      else
        match GetCoordinatorRole(roledefs)
        case None => KeyError(CoordinatorRole)
        case Some(coordinators) => if host in coordinators then Skip else Invoke(args)
  }

  /** By_role_coordinator is by_rolename with the coordinator role whenever the
      table has that role; without it the first aborts and the second raises. */
  lemma ByRoleCoordinatorIsByRolename<A>(host: Host, roledefs: RoleDefs, args: A)
    ensures CoordinatorRole in RoleNames(roledefs) ==>
              ByRoleCoordinator(host, roledefs, args) == ByRolename(host, Some(CoordinatorRole), roledefs, args)
    ensures CoordinatorRole !in RoleNames(roledefs) ==>
              ByRoleCoordinator(host, roledefs, args).KeyError? &&
              ByRolename(host, Some(CoordinatorRole), roledefs, args).Abort?
  {
  }

  /** No host runs both a coordinator task and a worker task. */
  lemma CoordinatorAndWorkerExclusive<A>(host: Host, roledefs: RoleDefs, args: A)
    ensures !(ByRoleCoordinator(host, roledefs, args).Invoke? && ByRoleWorker(host, roledefs, args).Invoke?)
  {
  }

  /** With both roles defined, every host of either role runs exactly one of the
      coordinator task and the worker task, and a host in neither role runs none. */
  lemma EveryRoleHostRunsOnce<A>(host: Host, roledefs: RoleDefs, args: A)
    requires CoordinatorRole in RoleNames(roledefs) && WorkerRole in RoleNames(roledefs)
    ensures (ByRoleCoordinator(host, roledefs, args).Invoke? || ByRoleWorker(host, roledefs, args).Invoke?) <==>
              (host in GetCoordinatorRole(roledefs).value || host in GetWorkerRole(roledefs).value)
  {
  }
}
