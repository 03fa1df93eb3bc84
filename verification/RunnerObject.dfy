/** A Runner or MultiRunner: the copy a reconcile works on, and the one the API server holds. */
module RunnerObject {
  import opened Common
  import opened Names
  import opened Executor
  import opened ManagedRunner
  import opened Rbac

  /** The registration state in status: three fields of a Runner, three maps by entry name of
      a MultiRunner. */
  datatype Registrations =
    | One(reg: Registration)
    | PerEntry(ids: map<string, int>, hashes: map<string, string>, expires: map<string, int>)

  function Lookup(rs: Registrations, name: string): Registration {
    match rs
    case One(reg) => reg
    case PerEntry(ids, hashes, expires) =>
      Registration(
        if name in ids then ids[name] else 0,
        if name in hashes then hashes[name] else "",
        if name in expires then Some(expires[name]) else None)
  }

  /** StoreRunnerRegistration: without an expiry the entry's old one is removed. */
  function Store(rs: Registrations, name: string, reg: Registration): Registrations {
    match rs
    case One(_) => One(reg)
    case PerEntry(ids, hashes, expires) =>
      PerEntry(
        ids[name := reg.runnerId],
        hashes[name := reg.hash],
        match reg.expiresAt case Some(t) => expires[name := t] case None => expires - {name})
  }

  lemma StoreThenLookup(rs: Registrations, name: string, reg: Registration, other: string)
    ensures Lookup(Store(rs, name, reg), name) == reg
    ensures rs.PerEntry? && other != name ==> Lookup(Store(rs, name, reg), other) == Lookup(rs, other)
    ensures Store(rs, name, reg).One? <==> rs.One?
  {
  }

  /** The names something is stored for. */
  predicate Knows(rs: Registrations, name: string) {
    rs.PerEntry? && (name in rs.ids || name in rs.hashes || name in rs.expires)
  }

  /** A new entry, for which nothing was ever stored, is unregistered: its first step asks GitLab
      for a runner and does nothing else. */
  lemma NewEntryIsUnregistered(rs: Registrations, name: string, recovered: string, hash: string, now: int, a: Answers)
    requires rs.PerEntry? && !Knows(rs, name)
    ensures EnsureRunner(Lookup(rs, name), recovered, hash, now, a).calls == if a.client then [Create] else []
  {
    UnregisteredUnitIsCreated(Lookup(rs, name), recovered, hash, now, a);
  }

  datatype Status = Status(ready: bool, error: string, configVersion: string, registrations: Registrations)

  /** One runner unit of the spec. `createOptions` is the digest of the create options of a
      managed unit; None means a provided token. `settings` stands for limits and environment. */
  datatype Entry = Entry(name: string, createOptions: Option<string>, executor: KubernetesConfig, settings: string)

  /** What one unit hands to registration. */
  datatype RegInfo = RegInfo(name: string, createOptions: Option<string>, reg: Registration)

  predicate UniqueNames(entries: seq<Entry>) {
    forall i, j | 0 <= i < j < |entries| :: entries[i].name != entries[j].name
  }

  /** The object as the API server holds it. `deleting` is its deletion mark. */
  class StoredObject {
    var deleting: bool
    var finalizer: bool
    var annotations: map<string, string>
    var status: Status

    constructor (finalizer: bool, annotations: map<string, string>, status: Status)
      ensures !deleting && this.finalizer == finalizer && this.annotations == annotations && this.status == status
    {
      deleting := false;
      this.finalizer := finalizer;
      this.annotations := annotations;
      this.status := status;
    }
  }

  class RunnerObject {
    const kind: Kind
    const namespace: string
    const name: string
    const uid: string
    var entries: seq<Entry>
    var deleting: bool
    var finalizer: bool
    var annotations: map<string, string>
    var status: Status

    constructor (kind: Kind, namespace: string, name: string, uid: string, entries: seq<Entry>, stored: StoredObject)
      ensures this.kind == kind && this.namespace == namespace && this.name == name && this.uid == uid
      ensures this.entries == entries && deleting == stored.deleting && finalizer == stored.finalizer
      ensures annotations == stored.annotations && status == stored.status
    {
      this.kind := kind;
      this.namespace := namespace;
      this.name := name;
      this.uid := uid;
      this.entries := entries;
      deleting := stored.deleting;
      finalizer := stored.finalizer;
      annotations := stored.annotations;
      status := stored.status;
    }

    /** A Runner has one unit named after itself, a MultiRunner uniquely named entries. */
    predicate WellFormed()
      reads `entries, `status
    {
      && UniqueNames(entries)
      && (kind.Runner? ==> |entries| == 1 && entries[0].name == name)
      && (status.registrations.One? <==> kind.Runner?)
    }

    function Owner(): Owner
      reads `entries
    {
      Rbac.Owner(kind, namespace, name, uid, Executors(entries))
    }

    /** One record per unit of the spec, with its registration from status. */
    method RegistrationConfig() returns (res: seq<RegInfo>)
      ensures |res| == |entries|
      ensures forall i | 0 <= i < |entries| ::
                res[i] == RegInfo(entries[i].name, entries[i].createOptions, Lookup(status.registrations, entries[i].name))
    {
      res := [];
      for i := 0 to |entries|
        invariant |res| == i
        invariant forall j | 0 <= j < i ::
                    res[j] == RegInfo(entries[j].name, entries[j].createOptions, Lookup(status.registrations, entries[j].name))
      {
        res := res + [RegInfo(entries[i].name, entries[i].createOptions, Lookup(status.registrations, entries[i].name))];
      }
    }

    /** The named unit's registration becomes `reg`, those of other entries stay. */
    method StoreRunnerRegistration(name: string, reg: Registration)
      modifies this`status
      ensures Lookup(status.registrations, name) == reg
      ensures forall other | other != name && old(status).registrations.PerEntry? ::
                Lookup(status.registrations, other) == Lookup(old(status).registrations, other)
      ensures status == old(status).(registrations := Store(old(status).registrations, name, reg))
    {
      status := status.(registrations := Store(status.registrations, name, reg));
    }
  }

  function Executors(entries: seq<Entry>): (r: seq<KubernetesConfig>)
    ensures |r| == |entries| && forall i | 0 <= i < |entries| :: r[i] == entries[i].executor
  {
    seq(|entries|, i requires 0 <= i < |entries| => entries[i].executor)
  }
}
