/**
 * The ACL manager (modules/auth): every resource may carry a stored minimum
 * role rank; a role is authorized for a resource when its rank is at least
 * the stored one, and a resource without a stored ACL is open to all.
 * The key-value store behind it is modelled as the map of stored ranks,
 * with the outcome of each store call given as a parameter.
 */
module AclManager {
  import opened Wrappers
  import JsonConf

  type Role = string

  const NoneRole: Role := "none"
  const PublicRead: Role := "public_read"
  const PublicWrite: Role := "public_write"
  const AuthRead: Role := "authenticated_read"
  const AuthWrite: Role := "authenticated_write"
  const Admin: Role := "admin"

  /** The highest rank (admin). */
  const MaxRank := 5

  const InvalidRole := "Invalid Role"

  /** The role-to-rank table `aclMap`. */
  function Rank(role: Role): (r: Option<int>)
    ensures r.Some? ==> 0 <= r.value <= MaxRank
  {
    if role == NoneRole then Some(0)
    else if role == PublicRead then Some(1)
    else if role == PublicWrite then Some(2)
    else if role == AuthRead then Some(3)
    else if role == AuthWrite then Some(4)
    else if role == Admin then Some(5)
    else None
  }

  /** The rank-to-role table `raclMap`. */
  function RoleOf(rank: int): (r: Option<Role>)
  {
    if rank == 0 then Some(NoneRole)
    else if rank == 1 then Some(PublicRead)
    else if rank == 2 then Some(PublicWrite)
    else if rank == 3 then Some(AuthRead)
    else if rank == 4 then Some(AuthWrite)
    else if rank == 5 then Some(Admin)
    else None
  }

  /** Indexing `raclMap` outside its keys yields Go's zero value, the empty role. */
  function RoleAt(rank: int): Role
  {
    RoleOf(rank).GetOr("")
  }

  /** The two tables are mutual inverses on the six roles and the ranks 0..5. */
  lemma RankRoleInverse(role: Role, rank: int)
    ensures Rank(role) == Some(rank) <==> RoleOf(rank) == Some(role)
    ensures RoleOf(rank).Some? <==> 0 <= rank <= MaxRank
  {
  }

  /** The roles from admin down to rank `lo`, as Allowed lists them. */
  function RolesDownTo(hi: int, lo: int): (r: seq<Role>)
    decreases hi - lo + 1
  {
    if hi < lo then [] else [RoleAt(hi)] + RolesDownTo(hi - 1, lo)
  }

  /** All six roles, None first: the answer for a resource without an ACL. */
  const AllRoles: seq<Role> := [NoneRole, PublicRead, PublicWrite, AuthRead, AuthWrite, Admin]

  /** The stored rank of `rsc`, if it has an ACL (a failing store Read). */
  function StoredIn(acls: map<string, int>, rsc: string): (r: Option<int>)
    ensures r.Some? <==> rsc in acls
    ensures r.Some? ==> r.value == acls[rsc]
  {
    if rsc in acls then Some(acls[rsc]) else None
  }

  /** What Allowed returns for a resource whose stored rank is `stored`. */
  function AllowedFor(stored: Option<int>): seq<Role>
  {
    if stored.None? then AllRoles else RolesDownTo(MaxRank, stored.value)
  }

  /** What Authorized returns for a resource whose stored rank is `stored`. */
  function AuthorizedFor(stored: Option<int>, role: Role): bool
  {
    stored.None? || (Rank(role).Some? && Rank(role).value >= stored.value)
  }

  lemma {:induction false} RolesDownToShape(hi: int, lo: int)
    requires lo <= hi + 1
    ensures |RolesDownTo(hi, lo)| == hi - lo + 1
    ensures forall k :: 0 <= k < |RolesDownTo(hi, lo)| ==> RolesDownTo(hi, lo)[k] == RoleAt(hi - k)
    decreases hi - lo + 1
  {
    if hi >= lo {
      RolesDownToShape(hi - 1, lo);
    }
  }

  /** Allowed with a stored rank lists `5 - rank + 1` roles, admin first, down to the stored one. */
  lemma AllowedStored(rank: int)
    requires 0 <= rank <= MaxRank
    ensures var a := AllowedFor(Some(rank));
      |a| == MaxRank - rank + 1 && a[0] == Admin && a[|a| - 1] == RoleAt(rank) &&
      forall k :: 0 <= k < |a| ==> Rank(a[k]) == Some(MaxRank - k)
  {
    RolesDownToShape(MaxRank, rank);
  }

  /**
   * Allowed and Authorized agree: a known role appears in the Allowed list
   * exactly when it is authorized, for every stored rank Configure can write.
   */
  lemma AllowedIffAuthorized(stored: Option<int>, role: Role)
    requires stored.Some? ==> 0 <= stored.value <= MaxRank
    requires Rank(role).Some?
    ensures role in AllowedFor(stored) <==> AuthorizedFor(stored, role)
  {
    if stored.Some? {
      var a := AllowedFor(stored);
      RolesDownToShape(MaxRank, stored.value);
      var r := Rank(role).value;
      RankRoleInverse(role, r);
      if r >= stored.value {
        assert a[MaxRank - r] == role;
      }
      if role in a {
        var k :| 0 <= k < |a| && a[k] == role;
        RankRoleInverse(role, MaxRank - k);
      }
    }
  }

  /** An unknown role is never authorized where an ACL is stored, and never listed. */
  lemma UnknownRoleRefused(stored: int, role: Role)
    requires 0 <= stored <= MaxRank && Rank(role).None?
    ensures !AuthorizedFor(Some(stored), role) && role !in AllowedFor(Some(stored))
  {
    RolesDownToShape(MaxRank, stored);
    if role in AllowedFor(Some(stored)) {
      var k :| 0 <= k < |AllowedFor(Some(stored))| && AllowedFor(Some(stored))[k] == role;
      RankRoleInverse(role, MaxRank - k);
    }
  }

  /**
   * What configuring one entry of the ACL configuration fails with: an
   * unknown role, or the error of the store's Update for that resource
   * (`updateErrs` lists the resources whose Update fails).
   */
  function EntryError(acls: map<string, string>, updateErrs: map<string, string>, k: string): (r: Option<string>)
    requires k in acls
    ensures Rank(acls[k]).None? ==> r == Some(InvalidRole)
    ensures Rank(acls[k]).Some? ==> r == if k in updateErrs then Some(updateErrs[k]) else None
  {
    if Rank(acls[k]).None? then Some(InvalidRole)
    else if k in updateErrs then Some(updateErrs[k])
    else None
  }

  /** `ks` lists distinct resources of the configuration, each configured without error. */
  ghost predicate LoadedKeys(acls: map<string, string>, updateErrs: map<string, string>, ks: seq<string>)
  {
    Distinct(ks) && forall k :: k in ks ==> k in acls && EntryError(acls, updateErrs, k).None?
  }

  /** The store after configuring the resources `ks`: their ranks written over `initial`. */
  function Written(initial: map<string, int>, acls: map<string, string>, ks: seq<string>): (r: map<string, int>)
    requires forall k :: k in ks ==> k in acls && Rank(acls[k]).Some?
    ensures r.Keys == initial.Keys + set k | k in ks
    ensures forall k :: k in r ==> r[k] == if k in ks then Rank(acls[k]).value else initial[k]
  {
    initial + map k | k in ks :: Rank(acls[k]).value
  }

  /**
   * The load stopped at resource `k`: the resources `ks` were configured
   * before it and stay written in the store, and `k` failed with `err`.
   */
  ghost predicate StoppedAt(initial: map<string, int>, acls: map<string, string>, updateErrs: map<string, string>,
                            ks: seq<string>, k: string, err: string, store: map<string, int>)
  {
    LoadedKeys(acls, updateErrs, ks) && k in acls && k !in ks &&
    EntryError(acls, updateErrs, k) == Some(err) && store == Written(initial, acls, ks)
  }

  /**
   * Loading the configured ACLs: the entries are configured in some order
   * until one fails, by an invalid role or a failing Update; the entries
   * configured before it stay written. `store` is the store's ACLs after
   * the loop.
   */
  method LoadAcls(initial: map<string, int>, acls: map<string, string>, updateErrs: map<string, string>)
    returns (r: Result<map<string, int>>, store: map<string, int>)
    ensures r.Ok? <==> forall k :: k in acls ==> EntryError(acls, updateErrs, k).None?
    ensures r.Ok? ==> r.value == store && store == initial + map k | k in acls :: Rank(acls[k]).value
    ensures r.Err? ==> exists ks, k :: StoppedAt(initial, acls, updateErrs, ks, k, r.error, store)
  {
    var todo := acls.Keys;
    store := initial;
    ghost var done: seq<string> := [];
    while todo != {}
      invariant todo <= acls.Keys
      invariant LoadedKeys(acls, updateErrs, done)
      invariant forall k :: k in acls ==> (k in done <==> k !in todo)
      invariant store == Written(initial, acls, done)
      decreases todo
    {
      var k :| k in todo;
      var rank := Rank(acls[k]);
      if rank.None? || k in updateErrs {
        assert StoppedAt(initial, acls, updateErrs, done, k, EntryError(acls, updateErrs, k).value, store);
        return Err(EntryError(acls, updateErrs, k).value), store;
      }
      LoadStep(initial, acls, updateErrs, done, k);
      store := store[k := rank.value];
      done := done + [k];
      todo := todo - {k};
    }
    assert Written(initial, acls, done) == initial + map k | k in acls :: Rank(acls[k]).value;
    return Ok(store), store;
  }

  /** Configuring one more resource without error extends the loaded list and the store. */
  lemma LoadStep(initial: map<string, int>, acls: map<string, string>, updateErrs: map<string, string>, done: seq<string>, k: string)
    requires LoadedKeys(acls, updateErrs, done) && k in acls && k !in done && EntryError(acls, updateErrs, k).None?
    ensures LoadedKeys(acls, updateErrs, done + [k])
    ensures Written(initial, acls, done + [k]) == Written(initial, acls, done)[k := Rank(acls[k]).value]
  {
    var ks := done + [k];
    assert forall x :: x in ks <==> x in done || x == k;
    DistinctSnoc(done, k);
    WrittenSnoc(initial, acls, done, k);
  }

  /** A sequence of distinct keys stays distinct with one more key it does not hold. */
  lemma DistinctSnoc(done: seq<string>, k: string)
    requires Distinct(done) && k !in done
    ensures Distinct(done + [k])
  {
    var ks := done + [k];
    forall i, j | 0 <= i < j < |ks| ensures ks[i] != ks[j] {
      assert ks[i] == done[i];
      if j < |done| {
        assert ks[j] == done[j];
      }
    }
  }

  /** Writing one more resource's rank. */
  lemma WrittenSnoc(initial: map<string, int>, acls: map<string, string>, done: seq<string>, k: string)
    requires forall x :: x in done ==> x in acls && Rank(acls[x]).Some?
    requires k in acls && Rank(acls[k]).Some?
    ensures Written(initial, acls, done + [k]) == Written(initial, acls, done)[k := Rank(acls[k]).value]
  {
    var ks := done + [k];
    assert forall x :: x in ks <==> x in done || x == k;
    var w1, w2 := Written(initial, acls, ks), Written(initial, acls, done)[k := Rank(acls[k]).value];
    assert w1.Keys == w2.Keys;
  }

  class Manager {
    /** The stored rank of every resource that has an ACL. */
    var acls: map<string, int>

    ghost predicate Valid()
      reads this
    {
      forall k :: k in acls ==> 0 <= acls[k] <= MaxRank
    }

    constructor (acls: map<string, int>)
      requires forall k :: k in acls ==> 0 <= acls[k] <= MaxRank
      ensures this.acls == acls && Valid()
    {
      this.acls := acls;
    }

    function Stored(rsc: string): (r: Option<int>)
      reads this
      ensures r == StoredIn(acls, rsc)
    {
      StoredIn(acls, rsc)
    }

    /** Configure: an unknown role fails and writes nothing; otherwise the rank is stored. */
    method Configure(rsc: string, role: Role, updateErr: Option<string>) returns (err: Option<string>)
      requires Valid()
      modifies this
      ensures Valid()
      ensures Rank(role).None? ==> err == Some(InvalidRole) && acls == old(acls)
      ensures Rank(role).Some? && updateErr.Some? ==> err == updateErr && acls == old(acls)
      ensures Rank(role).Some? && updateErr.None? ==> err.None? && acls == old(acls)[rsc := Rank(role).value]
    {
      var r := Rank(role);
      if r.None? {
        return Some(InvalidRole);
      }
      if updateErr.Some? {
        return updateErr;
      }
      acls := acls[rsc := r.value];
      return None;
    }

    /** Delete removes the resource's ACL. */
    method Delete(rsc: string, deleteErr: Option<string>) returns (err: Option<string>)
      requires Valid()
      modifies this
      ensures Valid()
      ensures err == deleteErr
      ensures deleteErr.None? ==> acls == old(acls) - {rsc}
      ensures deleteErr.Some? ==> acls == old(acls)
    {
      if deleteErr.None? {
        acls := acls - {rsc};
      }
      return deleteErr;
    }

    function Authorized(rsc: string, role: Role): (r: bool)
      reads this
      ensures rsc !in acls ==> r
      ensures rsc in acls && Rank(role).None? ==> !r
      ensures rsc in acls && Rank(role).Some? ==> (r <==> Rank(role).value >= acls[rsc])
    {
      AuthorizedFor(Stored(rsc), role)
    }

    /** Allowed: every role when no ACL is stored, else admin down to the stored rank. */
    method Allowed(rsc: string) returns (roles: seq<Role>)
      ensures roles == AllowedFor(Stored(rsc))
    {
      if rsc !in acls {
        return AllRoles;
      }
      var lo := acls[rsc];
      roles := [];
      var i := MaxRank;
      while i >= lo
        invariant i <= MaxRank && (lo <= MaxRank ==> lo - 1 <= i)
        invariant roles + RolesDownTo(i, lo) == RolesDownTo(MaxRank, lo)
        decreases i - lo + 1
      {
        roles := roles + [RoleAt(i)];
        i := i - 1;
      }
    }
  }

  /**
   * NewAclManager: obtain the store (the shared "acl" store in P2P mode,
   * whose error `sharedErr` is returned as is; the repository's store
   * otherwise), then configure the "ACL" configuration entry, when it
   * decodes as a map of strings, resource by resource. `stored` holds the
   * store's ACLs before the call and `store` those after it, including the
   * writes made before a failing entry.
   */
  method NewAclManager(cfg: JsonConf.Config, stored: map<string, int>, sharedErr: Option<string>, updateErrs: map<string, string>)
    returns (r: Result<Manager>, store: map<string, int>)
    requires forall k :: k in stored ==> 0 <= stored[k] <= MaxRank
    ensures sharedErr.Some? ==> r == Err(sharedErr.value) && store == stored
    ensures sharedErr.None? ==>
      var acls := match cfg.Get("ACL") case Some(j) => JsonConf.DecodeStringMap(j, map[]) case None => None;
      (acls.None? ==> r.Ok? && store == stored) &&
      (acls.Some? ==> (
        (r.Ok? <==> forall k :: k in acls.value ==> EntryError(acls.value, updateErrs, k).None?) &&
        (r.Ok? ==> store == stored + map k | k in acls.value :: Rank(acls.value[k]).value) &&
        (r.Err? ==> exists ks, k :: StoppedAt(stored, acls.value, updateErrs, ks, k, r.error, store))))
    ensures r.Ok? ==> r.value.acls == store && r.value.Valid()
  {
    if sharedErr.Some? {
      return Err(sharedErr.value), stored;
    }
    var entry := cfg.Get("ACL");
    var acls := match entry case Some(j) => JsonConf.DecodeStringMap(j, map[]) case None => None;
    var loaded: Result<map<string, int>> := Ok(stored);
    store := stored;
    if acls.Some? {
      loaded, store := LoadAcls(stored, acls.value, updateErrs);
    }
    if loaded.Err? {
      return Err(loaded.error), store;
    }
    var m := new Manager(loaded.value);
    return Ok(m), store;
  }

  /** After Delete the resource is open to every role again. */
  lemma DeleteReopens(acls: map<string, int>, rsc: string, role: Role)
    ensures AuthorizedFor(StoredIn(acls - {rsc}, rsc), role)
  {
  }
}
