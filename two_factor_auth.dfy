/**
 * The two-factor association of a user: one record per user in the
 * twofactor_auths table (user_id is its primary key), holding the id of the
 * user's current verification session. The enablement mode decides how a new
 * id is written: `per_user` updates an existing record and never inserts one,
 * `always` checks for the record and creates or updates it in one atomic
 * step, and any other mode writes nothing.
 */
module TwoFactorAuth {
  import opened Wrappers

  type UserId = nat

  /** A verification session id, as the remote service assigns it. */
  type Handle = string

  /** The twofactor_auths table: each user's record, holding its (nullable) id column. */
  type Records = map<UserId, Option<Handle>>

  const PerUser := "per_user"
  const Always := "always"

  /** The enablement mode; `config` is None when the setting is not configured. */
  function Mode(config: Option<string>): (mode: string)
    ensures config.None? ==> mode == PerUser
    ensures config.Some? ==> mode == config.value
  {
    config.GetOr(PerUser)
  }

  datatype StoreError =
    | MissingRecord(user: UserId)    // the user has no record to update or read
    | DuplicateRecord(user: UserId)  // an insert would repeat the primary key

  /** Every user other than `u` has the same record, or the same absence of one, in both tables. */
  ghost predicate Untouched(m: Records, m': Records, u: UserId)
  {
    forall v :: v != u ==> (v in m <==> v in m') && (v in m ==> m'[v] == m[v])
  }

  /** `update(['id' => h])` on the user's record; there is nothing to update when it is absent. */
  function UpdateRecord(m: Records, u: UserId, h: Option<Handle>): (r: Result<Records, StoreError>)
    ensures r.Ok? <==> u in m
    ensures r.Err? ==> r.error == MissingRecord(u)
    ensures r.Ok? ==> r.value.Keys == m.Keys && r.value[u] == h && Untouched(m, r.value, u)
  {
    if u in m then Ok(m[u := h]) else Err(MissingRecord(u))
  }

  /** `create(['id' => h])` of the user's record; the primary key refuses a second one. */
  function CreateRecord(m: Records, u: UserId, h: Option<Handle>): (r: Result<Records, StoreError>)
    ensures r.Ok? <==> u !in m
    ensures r.Err? ==> r.error == DuplicateRecord(u)
    ensures r.Ok? ==> r.value.Keys == m.Keys + {u} && r.value[u] == h && Untouched(m, r.value, u)
  {
    if u in m then Err(DuplicateRecord(u)) else Ok(m[u := h])
  }

  /** upsertTwoFactorAuthId: the existence check and the create or update, as one step. */
  function UpsertRecord(m: Records, u: UserId, h: Option<Handle>): (r: Result<Records, StoreError>)
    ensures r.Ok?
    ensures r.value.Keys == m.Keys + {u} && r.value[u] == h && Untouched(m, r.value, u)
  {
    if u !in m then CreateRecord(m, u, h) else UpdateRecord(m, u, h)
  }

  /** setTwoFactorAuthId: write `h` as the mode says. */
  function AssignHandle(config: Option<string>, m: Records, u: UserId, h: Option<Handle>): (r: Result<Records, StoreError>)
    ensures Mode(config) == PerUser ==> (r.Ok? <==> u in m) && (r.Ok? ==> r.value.Keys == m.Keys)
    ensures Mode(config) == Always ==> r.Ok? && r.value.Keys == m.Keys + {u}
    ensures Mode(config) != PerUser && Mode(config) != Always ==> r == Ok(m)
    ensures r.Ok? && (Mode(config) == PerUser || Mode(config) == Always) ==> r.value[u] == h
    ensures r.Ok? ==> Untouched(m, r.value, u)
    ensures r.Err? ==> r.error == MissingRecord(u)
  {
    var mode := Mode(config);
    if mode == PerUser then UpdateRecord(m, u, h)
    else if mode == Always then UpsertRecord(m, u, h)
    else Ok(m)
  }

  /** getTwoFactorAuthId: the id column of the user's record. */
  function StoredHandle(m: Records, u: UserId): Result<Option<Handle>, StoreError>
  {
    if u in m then Ok(m[u]) else Err(MissingRecord(u))
  }

  /** After a successful write in either mode, reading back gives the id just written; the reads of other users do not change. */
  lemma StoredAfterAssign(config: Option<string>, m: Records, u: UserId, h: Option<Handle>, v: UserId)
    requires Mode(config) == PerUser || Mode(config) == Always
    requires AssignHandle(config, m, u, h).Ok?
    ensures StoredHandle(AssignHandle(config, m, u, h).value, u) == Ok(h)
    ensures v != u ==> StoredHandle(AssignHandle(config, m, u, h).value, v) == StoredHandle(m, v)
  {
  }

  /** Writing the same id a second time leaves the table as the first write left it. */
  lemma AssignIdempotent(config: Option<string>, m: Records, u: UserId, h: Option<Handle>)
    requires AssignHandle(config, m, u, h).Ok?
    ensures AssignHandle(config, AssignHandle(config, m, u, h).value, u, h) == AssignHandle(config, m, u, h)
  {
    var once := AssignHandle(config, m, u, h).value;
    if Mode(config) == PerUser || Mode(config) == Always {
      assert once == m[u := h];
      assert once[u := h] == once;
    }
  }

  /** A sequence of writes for one user, applied one after another as serialized transactions; the first failure stops it. */
  function AssignEach(config: Option<string>, m: Records, u: UserId, hs: seq<Option<Handle>>): Result<Records, StoreError>
    decreases |hs|
  {
    if hs == [] then Ok(m)
    else match AssignHandle(config, m, u, hs[0])
      case Err(e) => Err(e)
      case Ok(m') => AssignEach(config, m', u, hs[1..])
  }

  /** How many of the writes in `hs`, applied in order, bring the user's record into existence. */
  function Inserts(config: Option<string>, m: Records, u: UserId, hs: seq<Option<Handle>>): nat
    decreases |hs|
  {
    if hs == [] then 0
    else match AssignHandle(config, m, u, hs[0])
      case Err(_) => 0
      case Ok(m') => (if u !in m && u in m' then 1 else 0) + Inserts(config, m', u, hs[1..])
  }

  /**
   * Serialized writes for one user: the last writer wins in both modes, per_user
   * fails at once without a record, any other mode leaves the table alone.
   */
  lemma {:induction false} AssignEachOutcome(config: Option<string>, m: Records, u: UserId, hs: seq<Option<Handle>>)
    ensures AssignEach(config, m, u, hs) ==
      if hs == [] then Ok(m)
      else if Mode(config) == PerUser && u !in m then Err(MissingRecord(u))
      else if Mode(config) == PerUser || Mode(config) == Always then Ok(m[u := hs[|hs| - 1]])
      else Ok(m)
    decreases |hs|
  {
    if hs != [] {
      var step := AssignHandle(config, m, u, hs[0]);
      if step.Ok? {
        AssignEachOutcome(config, step.value, u, hs[1..]);
        if Mode(config) == PerUser || Mode(config) == Always {
          assert step.value == m[u := hs[0]];
          assert step.value[u := hs[|hs| - 1]] == m[u := hs[|hs| - 1]];
        }
      }
    }
  }

  /** However many writes for one user are serialized, at most one inserts a record: only the first, in `always` mode, when there was none. */
  lemma {:induction false} InsertsAtMostOnce(config: Option<string>, m: Records, u: UserId, hs: seq<Option<Handle>>)
    ensures Inserts(config, m, u, hs) == if hs != [] && Mode(config) == Always && u !in m then 1 else 0
    decreases |hs|
  {
    if hs != [] {
      var step := AssignHandle(config, m, u, hs[0]);
      if step.Ok? {
        InsertsAtMostOnce(config, step.value, u, hs[1..]);
      }
    }
  }

  /** The table, updated in place by the TwoFactorAuthenticable methods of every user. */
  class AssociationStore {
    var records: Records

    constructor (records: Records)
      ensures this.records == records
    {
      this.records := records;
    }

    /** `twoFactorAuth()->exists()`. */
    method Exists(u: UserId) returns (b: bool)
      ensures b <==> u in records
    {
      b := u in records;
    }

    method Create(u: UserId, h: Option<Handle>) returns (r: Result<(), StoreError>)
      modifies this`records
      ensures Committed(CreateRecord(old(records), u, h), r, old(records), records)
    {
      if u in records {
        r := Err(DuplicateRecord(u));
      } else {
        records := records[u := h];
        r := Ok(());
      }
    }

    method Update(u: UserId, h: Option<Handle>) returns (r: Result<(), StoreError>)
      modifies this`records
      ensures Committed(UpdateRecord(old(records), u, h), r, old(records), records)
    {
      if u in records {
        records := records[u := h];
        r := Ok(());
      } else {
        r := Err(MissingRecord(u));
      }
    }

    /** upsertTwoFactorAuthId, its transaction taken as one atomic step; it never hits the duplicate key. */
    method UpsertTwoFactorAuthId(u: UserId, h: Option<Handle>) returns (r: Result<(), StoreError>)
      modifies this`records
      ensures Committed(UpsertRecord(old(records), u, h), r, old(records), records)
      ensures r.Ok? && u in records && records[u] == h
    {
      var present := Exists(u);
      if !present {
        r := Create(u, h);
      } else {
        r := Update(u, h);
      }
    }

    /** setTwoFactorAuthId, the mode passed in. */
    method SetTwoFactorAuthId(config: Option<string>, u: UserId, h: Option<Handle>) returns (r: Result<(), StoreError>)
      modifies this`records
      ensures Committed(AssignHandle(config, old(records), u, h), r, old(records), records)
    {
      var mode := Mode(config);
      if mode == PerUser {
        r := Update(u, h);
      } else if mode == Always {
        r := UpsertTwoFactorAuthId(u, h);
      } else {
        r := Ok(());
      }
    }

    /** getTwoFactorAuthId: the stored id, or no record to read it from. */
    method GetTwoFactorAuthId(u: UserId) returns (r: Result<Option<Handle>, StoreError>)
      ensures r.Ok? <==> u in records
      ensures r.Ok? ==> r.value == records[u]
      ensures r == StoredHandle(records, u)
    {
      if u in records {
        r := Ok(records[u]);
      } else {
        r := Err(MissingRecord(u));
      }
    }
  }

  /** A write took effect exactly as `step` says, or failed with its error and changed nothing. */
  ghost predicate Committed(step: Result<Records, StoreError>, r: Result<(), StoreError>, before: Records, after: Records)
  {
    match step
    case Ok(m) => r == Ok(()) && after == m
    case Err(e) => r == Err(e) && after == before
  }
}
