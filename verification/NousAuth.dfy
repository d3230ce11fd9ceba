/** Rotation of the single-use Nous refresh token (codex_shim/nous_auth.py; section 6 of RFC 6749, with
    rotation as in its section 10.4). */
module NousAuth {
  import opened Common

  const PERSIST_ATTEMPTS := 3

  /** The text fields of a JSON object. */
  type Row = map<string, string>

  /** A JSON object: its `providers.nous` object, if there is one, and its own fields. */
  datatype Store = Store(nous: Option<Row>, root: Row)

  datatype File = Missing | Garbled | Holds(store: Store)

  datatype PendingPersist = PendingPersist(store: Store, shared: Store)

  /** What `int(expires_in)` makes of an answer's lifetime: no number, a number, or an overflow. */
  datatype Lifetime = NotANumber | Number(seconds: int) | Infinite

  /** Whether the date of expiry raises: it does when it lies more than `horizon` seconds from now, beyond the
      last date there is. */
  predicate Overflows(lifetime: Lifetime, horizon: nat) {
    match lifetime
    case NotANumber => false
    case Number(seconds) => seconds > horizon
    case Infinite => true
  }

  /** The refresh token in an answer: none, the posted one again, or a new one, which replaces it. */
  datatype Gift = NoToken | SameToken | NewToken

  /** What the portal does with its current token: it fails before it acts, or it answers, and the answer may be
      lost. */
  datatype Portal = Silent | Answers(access: string, gift: Gift, arrives: bool, lifetime: Lifetime)

  /** What came back from the token endpoint. */
  datatype Reply = Answered(access: string, refresh: string, lifetime: Lifetime) | Failed

  /** The file locks: they are taken, taken but an error escapes when they are released, not free in time, or broken. */
  datatype Lock = Acquired | Unreleased | TimedOut | Broken

  predicate Held(lock: Lock) {
    lock.Acquired? || lock.Unreleased?
  }

  /** One try at committing the shared file: whether it can be moved, and whether its mode can be set. */
  datatype Commit = Commit(moves: bool, modeSet: bool)

  /** One attempt at writing the pair: which files can be staged, the commit of `auth.json`, and the tries at
      committing the shared file. */
  datatype Write = Write(authStaged: bool, sharedStaged: bool, auth: Commit, shared: nat -> Commit)

  /** What the disk does in each attempt of a call. */
  type Disk = nat -> Write

  /** The shared file is moved and its mode set in the same try: once it is moved, no later try can. */
  ghost predicate CommitsShared(tries: nat -> Commit) {
    exists i: nat ::
      i < PERSIST_ATTEMPTS && tries(i) == Commit(true, true) && forall j: nat :: j < i ==> !tries(j).moves
  }

  ghost predicate GoesThrough(w: Write) {
    w.authStaged && w.sharedStaged && w.auth == Commit(true, true) && CommitsShared(w.shared)
  }

  /** One of the attempts goes through. */
  ghost predicate Writes(disk: Disk) {
    exists a: nat :: a < PERSIST_ATTEMPTS && GoesThrough(disk(a))
  }

  /** Both files carry the tokens. */
  predicate BothCarry(authFile: File, sharedFile: File, access: string, refresh: string) {
    && authFile.Holds? && authFile.store.nous.Some? && sharedFile.Holds?
    && Field(authFile.store.nous.value, "refresh_token") == refresh
    && Field(sharedFile.store.root, "refresh_token") == refresh
    && Field(authFile.store.nous.value, "agent_key") == access
    && Field(authFile.store.nous.value, "access_token") == access
    && Field(sharedFile.store.root, "access_token") == access
  }

  /** Writing the new tokens keeps the rest of `auth.json`. */
  predicate RestKept(before: File, after: File) {
    before.Holds? ==> after.Holds? && after.store.root == before.store.root
  }

  /** A call returns a flag, or an error escapes. */
  datatype Outcome = Returned(ok: bool) | Raised

  /** `str(row.get(key) or "").strip()`. */
  function Field(row: Row, key: string): string {
    Strip(if key in row then row[key] else "")
  }

  /** `_nous_state_from_store`. */
  function NousState(store: Store): Row {
    if store.nous.Some? then store.nous.value
    else if Field(store.root, "refresh_token") != "" then store.root
    else map[]
  }

  /** `_first_token`. */
  function FirstToken(row: Row): string {
    OrElse(Field(row, "agent_key"), OrElse(Field(row, "access_token"), Field(row, "api_key")))
  }

  /** `_token_from_mapping`. */
  function TokenFromMapping(store: Store): string {
    OrElse(if store.nous.Some? then FirstToken(store.nous.value) else "", FirstToken(store.root))
  }

  function TokenFromFile(file: File): string {
    if file.Holds? then TokenFromMapping(file.store) else ""
  }

  /** The object under `providers.nous` after an exchange. */
  function Updated(nous: Row, access: string, refresh: string): Row {
    (if access != "" then nous["access_token" := access]["agent_key" := access] else nous)["refresh_token" := refresh]
  }

  function SharedRow(updated: Row, refresh: string): Store {
    var access := if "access_token" in updated then updated["access_token"] else "";
    Store(None, map["access_token" := access, "refresh_token" := refresh])
  }

  /** One post of a refresh token: whether a replacement came back, and whether it was dropped then, because
      the date of expiry overflowed. */
  datatype Post = Post(token: string, replaced: bool, dropped: bool)

  function PostOf(token: string, current: string, portal: Portal, horizon: nat): Post {
    var replaced := token == current && portal.Answers? && portal.gift.NewToken? && portal.arrives;
    Post(token, replaced, replaced && Overflows(portal.lifetime, horizon))
  }

  /** No post comes after one whose replacement was dropped. */
  ghost predicate DropsLast(log: seq<Post>) {
    forall i :: 0 <= i < |log| - 1 ==> !log[i].dropped
  }

  ghost predicate NeverDropped(log: seq<Post>) {
    forall i :: 0 <= i < |log| ==> !log[i].dropped
  }

  /** From some dropped replacement on, its token is the one that is posted. */
  ghost predicate StuckOn(log: seq<Post>, token: string) {
    && log != [] && DropsLast(log) == log[|log| - 1].dropped
    && log[|log| - 1].token == token && WasReplaced(log, token)
    && (DropsLast(log) <==> NeverReused(log))
  }

  /** No token is posted again once a post of it has brought a replacement. */
  ghost predicate NeverReused(log: seq<Post>) {
    forall i, j :: 0 <= i < j < |log| && log[i].replaced ==> log[j].token != log[i].token
  }

  ghost predicate WasReplaced(log: seq<Post>, token: string) {
    exists i :: 0 <= i < |log| && log[i].replaced && log[i].token == token
  }

  lemma ReplacedSnoc(log: seq<Post>, p: Post)
    ensures forall t :: WasReplaced(log + [p], t) <==> WasReplaced(log, t) || (p.replaced && p.token == t)
  {
    var all := log + [p];
    forall t ensures WasReplaced(all, t) <==> WasReplaced(log, t) || (p.replaced && p.token == t) {
      if WasReplaced(log, t) {
        var i :| 0 <= i < |log| && log[i].replaced && log[i].token == t;
        assert all[i] == log[i];
      }
      if p.replaced && p.token == t {
        assert all[|log|] == p;
      }
    }
  }

  lemma ReusedSnoc(log: seq<Post>, p: Post)
    ensures NeverReused(log + [p]) <==> NeverReused(log) && !WasReplaced(log, p.token)
    ensures DropsLast(log + [p]) <==> NeverDropped(log)
    ensures NeverDropped(log + [p]) <==> NeverDropped(log) && !p.dropped
  {
    var all := log + [p];
    assert forall i :: 0 <= i < |log| ==> all[i] == log[i];
    assert all[|log|] == p;
    if NeverReused(all) {
      forall i, j | 0 <= i < j < |log| && log[i].replaced ensures log[j].token != log[i].token {
        assert all[i] == log[i] && all[j] == log[j];
      }
    }
    if WasReplaced(log, p.token) {
      var i :| 0 <= i < |log| && log[i].replaced && log[i].token == p.token;
      assert all[i].replaced && all[|log|].token == all[i].token;
    }
    if NeverDropped(all) {
      forall i | 0 <= i < |log| ensures !log[i].dropped { assert all[i] == log[i]; }
    }
    if DropsLast(all) {
      forall i | 0 <= i < |log| ensures !log[i].dropped { assert all[i] == log[i]; }
    }
  }

  /** Posting a dropped token again: it is a reuse, and a post after a drop. */
  lemma StuckSnoc(log: seq<Post>, p: Post)
    requires StuckOn(log, p.token) && !NeverDropped(log) && !p.replaced && !p.dropped
    ensures StuckOn(log + [p], p.token) && !NeverDropped(log + [p])
  {
    hide NeverReused, NeverDropped, DropsLast;
    ReusedSnoc(log, p);
    ReplacedSnoc(log, p);
  }

  lemma DroppedNow(log: seq<Post>, p: Post)
    requires NeverReused(log) && NeverDropped(log) && !WasReplaced(log, p.token) && p.replaced && p.dropped
    ensures StuckOn(log + [p], p.token) && !NeverDropped(log + [p])
  {
    hide NeverReused, NeverDropped, DropsLast;
    ReusedSnoc(log, p);
    ReplacedSnoc(log, p);
  }

  /** New refresh tokens: visible, and different from each other and from the first one. */
  ghost predicate Mints(mint: nat -> string, first: string) {
    && (forall k :: mint(k) != first && Strip(mint(k)) == mint(k) != "")
    && (forall j, k :: mint(j) == mint(k) ==> j == k)
  }

  lemma StripTwice(s: string)
    ensures Strip(Strip(s)) == Strip(s)
  {
    RightStripOfLeft(LeftStrip(s));
    LeftStripEnds(s);
    RightStripPrefix(LeftStrip(s));
  }

  lemma LeftStripEnds(s: string)
    ensures LeftStrip(s) == "" || !IsSpace(LeftStrip(s)[0])
  {
  }

  lemma RightStripPrefix(s: string)
    ensures RightStrip(s) <= s
  {
  }

  lemma RightStripOfLeft(s: string)
    ensures RightStrip(RightStrip(s)) == RightStrip(s)
  {
  }

  lemma NothingToStrip()
    ensures Strip("") == ""
  {
  }

  lemma UpdatedFields(nous: Row, access: string, refresh: string)
    requires Strip(access) == access && Strip(refresh) == refresh
    ensures var updated := Updated(nous, access, refresh);
            && Field(updated, "refresh_token") == refresh
            && Field(SharedRow(updated, refresh).root, "refresh_token") == refresh
            && Field(updated, "agent_key") == (if access != "" then access else Field(nous, "agent_key"))
            && (access != "" ==> Field(updated, "access_token") == access
                                 && Field(SharedRow(updated, refresh).root, "access_token") == access)
  {
  }

  lemma UpdatedCarry(store: Store, nous: Row, access: string, refresh: string)
    requires Strip(access) == access != "" && Strip(refresh) == refresh
    ensures var updated := Updated(nous, access, refresh);
            BothCarry(Holds(store.(nous := Some(updated))), Holds(SharedRow(updated, refresh)), access, refresh)
  {
    hide Strip;
    UpdatedFields(nous, access, refresh);
  }

  class NousOAuth {
    /** The process. */
    var pending: Option<PendingPersist>
    var startupRefreshDone: bool
    /** The disk. */
    var authFile: File
    var sharedFile: File
    /** The portal: the one refresh token it accepts, and how many it has issued. */
    const first: string
    const mint: nat -> string
    var current: string
    var issued: nat
    /** Every post, the last refresh token that an answer left valid, the newest access token that was
        kept, and whether an answer that rotated the token was lost. */
    var log: seq<Post>
    ghost var latest: Option<string>
    ghost var newestAccess: string
    var lost: bool

    /** The portal's token has never been replaced. */
    ghost predicate PortalOk()
      reads `current, `issued, `log
    {
      && Mints(mint, first)
      && (if issued == 0 then current == first else current == mint(issued - 1))
      && (forall t :: WasReplaced(log, t) ==> t == first || exists k :: 0 <= k < issued && t == mint(k))
      && !WasReplaced(log, current)
    }

    /** A store that carries the latest refresh token and the newest access token. */
    ghost predicate Carries(store: Store)
      reads `latest, `newestAccess
    {
      latest.Some? ==>
        && store.nous.Some? && Field(store.nous.value, "refresh_token") == latest.value
        && (newestAccess != "" ==> Field(store.nous.value, "agent_key") == newestAccess)
    }

    ghost predicate CarriesShared(store: Store)
      reads `latest
    {
      latest.Some? ==> store.nous.None? && Field(store.root, "refresh_token") == latest.value
    }

    ghost predicate DiskOk()
      reads `pending, `authFile, `sharedFile, `latest, `newestAccess
    {
      if pending.Some? then
        latest.Some? && Carries(pending.value.store) && CarriesShared(pending.value.shared)
      else if latest.Some? then
        authFile.Holds? && Carries(authFile.store) && sharedFile.Holds? && CarriesShared(sharedFile.store)
      else newestAccess == ""
    }

    ghost predicate LatestOk()
      reads `latest, `log, `lost, `current
    {
      && (latest.Some? ==> latest.value != "" && !WasReplaced(log, latest.value) && (!lost ==> current == latest.value))
      && (latest.None? ==> forall t :: !WasReplaced(log, t))
    }

    /** No replacement has been dropped, and no token was posted again. */
    ghost predicate Sound()
      reads `pending, `authFile, `sharedFile, `latest, `newestAccess, `log, `lost, `current
    {
      DiskOk() && LatestOk() && NeverReused(log) && NeverDropped(log)
    }

    /** A replacement has been dropped: the files still have the token that was replaced. */
    ghost predicate Stuck()
      reads `pending, `authFile, `sharedFile, `log, `current
    {
      && pending.None? && StuckOn(log, StoredToken()) && !NeverDropped(log) && current != StoredToken()
    }

    ghost predicate Valid()
      reads `pending, `authFile, `sharedFile, `latest, `newestAccess, `log, `lost, `current, `issued
    {
      PortalOk() && (Sound() || Stuck())
    }

    /** A token is reused exactly when something is posted after a dropped replacement. */
    lemma ReuseMeans()
      requires Valid()
      ensures NeverReused(log) <==> DropsLast(log)
    {
      hide NeverReused;
      if Sound() {
        assert forall i :: 0 <= i < |log| - 1 ==> !log[i].dropped;
      }
    }

    lemma NotStuck()
      requires Valid() && NeverDropped(log)
      ensures Sound()
    {
      hide NeverReused, NeverDropped, StuckOn;
    }

    /** After a dropped replacement the replaced token is still the one to be posted. */
    lemma DroppedStays(token: string)
      requires Valid() && log != [] && log[|log| - 1].dropped && log[|log| - 1].token == token
      ensures pending.None? && StoredToken() == token
    {
      hide NeverReused;
      assert !NeverDropped(log);
    }

    constructor (first: string, mint: nat -> string, authFile: File, sharedFile: File)
      requires Mints(mint, first)
      ensures Valid() && log == [] && pending.None? && latest.None? && !lost && newestAccess == ""
      ensures this.first == first && this.mint == mint && current == first
      ensures this.authFile == authFile && this.sharedFile == sharedFile
    {
      pending, startupRefreshDone := None, false;
      this.authFile, this.sharedFile := authFile, sharedFile;
      this.first, this.mint, current, issued := first, mint, first, 0;
      log, latest, newestAccess, lost := [], None, "", false;
    }

    /** The portal: it refuses any token but the current one. */
    method Exchange(token: string, portal: Portal, horizon: nat) returns (reply: Reply)
      requires PortalOk() && Strip(token) == token
      modifies `current, `issued, `log, `lost
      ensures PortalOk() && log == old(log) + [PostOf(token, old(current), portal, horizon)]
      ensures reply.Answered? <==> token == old(current) && portal.Answers? && portal.arrives
      ensures reply.Answered? ==>
                && lost == old(lost) && current == OrElse(reply.refresh, token)
                && Strip(reply.refresh) == reply.refresh && Strip(reply.access) == reply.access
                && reply.access == Strip(portal.access) && reply.lifetime == portal.lifetime
                && match portal.gift
                   case NoToken => reply.refresh == ""
                   case SameToken => reply.refresh == token
                   case NewToken => reply.refresh != "" && reply.refresh != token
                                    && !old(WasReplaced(log, reply.refresh))
      ensures reply.Failed? ==> lost || (!old(lost) && current == old(current))
      ensures current == old(current) || token == old(current) != current
      ensures old(lost) ==> lost
    {
      ReplacedSnoc(log, PostOf(token, current, portal, horizon));
      log := log + [PostOf(token, current, portal, horizon)];
      if token != current || portal.Silent? { return Failed; }
      StripTwice(portal.access);
      if !portal.gift.NewToken? {
        NothingToStrip();
        var refresh := if portal.gift.SameToken? then token else "";
        return if portal.arrives then Answered(Strip(portal.access), refresh, portal.lifetime) else Failed;
      }
      current := mint(issued);
      issued := issued + 1;
      if !portal.arrives {
        lost := true;
        return Failed;
      }
      return Answered(Strip(portal.access), current, portal.lifetime);
    }

    // ---- The disk ----

    /** `_commit_staged` for the shared store: the staged file takes the place of the old one, if it is
        still there, and then its mode is set; either may fail. */
    method CommitShared(shared: Store, staged: bool, commit: Commit) returns (ok: bool, stillStaged: bool)
      modifies `sharedFile
      ensures stillStaged == (staged && !commit.moves) && ok == (staged && commit.moves && commit.modeSet)
      ensures sharedFile == (if staged && commit.moves then Holds(shared) else old(sharedFile))
    {
      if !staged || !commit.moves {
        return false, staged;
      }
      sharedFile := Holds(shared);
      return commit.modeSet, false;
    }

    /** `_atomic_write_json_pair`: stage both files, commit the first, then try to commit the second. */
    method AtomicWritePair(p: PendingPersist, write: Write) returns (ok: bool)
      modifies `authFile, `sharedFile
      ensures ok <==> GoesThrough(write)
      ensures ok ==> authFile == Holds(p.store) && sharedFile == Holds(p.shared)
      ensures authFile == old(authFile) || authFile == Holds(p.store)
      ensures sharedFile == old(sharedFile) || (sharedFile == Holds(p.shared) && authFile == Holds(p.store))
    {
      if !write.authStaged || !write.sharedStaged || !write.auth.moves {
        return false;
      }
      authFile := Holds(p.store);
      if !write.auth.modeSet {
        return false;
      }
      var staged := true;
      for attempt := 0 to PERSIST_ATTEMPTS
        invariant authFile == Holds(p.store)
        invariant sharedFile == old(sharedFile) || sharedFile == Holds(p.shared)
        invariant staged <==> forall j: nat :: j < attempt ==> !write.shared(j).moves
        invariant forall i: nat :: i < attempt ==>
                    !(write.shared(i) == Commit(true, true) && forall j: nat :: j < i ==> !write.shared(j).moves)
      {
        ok, staged := CommitShared(p.shared, staged, write.shared(attempt));
        if ok { return; }
      }
      ok := false;
    }

    /** `_persist_rotated`: write the pair, in a few attempts, or else keep it in memory. */
    method PersistRotated(p: PendingPersist, disk: Disk) returns (ok: bool)
      modifies `authFile, `sharedFile, `pending
      ensures ok <==> Writes(disk)
      ensures ok ==> pending.None? && authFile == Holds(p.store) && sharedFile == Holds(p.shared)
      ensures !ok ==> pending == Some(p)
    {
      hide GoesThrough;
      for attempt := 0 to PERSIST_ATTEMPTS
        invariant forall a: nat :: a < attempt ==> !GoesThrough(disk(a))
      {
        ok := AtomicWritePair(p, disk(attempt));
        if ok {
          pending := None;
          return;
        }
      }
      pending := Some(p);
      ok := false;
    }

    /** `_flush_pending_persist`. */
    method FlushPendingPersist(lock: Lock, disk: Disk) returns (r: Outcome)
      requires Valid()
      modifies `authFile, `sharedFile, `pending
      ensures Valid() && (old(Sound()) ==> Sound())
      ensures pending == if Held(lock) && Writes(disk) then None else old(pending)
      ensures old(pending).Some? && Held(lock) && Writes(disk) ==>
                authFile == Holds(old(pending).value.store) && sharedFile == Holds(old(pending).value.shared)
      ensures r == if old(pending).None? then Returned(true)
                   else match lock
                        case Acquired => Returned(Writes(disk))
                        case TimedOut => Returned(false)
                        case _ => Raised
      ensures old(pending).None? || !Held(lock) ==> authFile == old(authFile) && sharedFile == old(sharedFile)
    {
      hide Writes;
      if pending.None? { return Returned(true); }
      match lock
      case TimedOut => return Returned(false);
      case Broken => return Raised;
      case _ =>
        var ok := PersistRotated(pending.value, disk);
        return if lock.Acquired? then Returned(ok) else Raised;
    }

    // ---- Refresh ----

    /** The refresh token that a refresh would post, from `auth.json` or else from the shared store. */
    function StoredToken(): string
      reads `authFile, `sharedFile
    {
      var own := if authFile.Holds? then Field(NousState(authFile.store), "refresh_token") else "";
      if own != "" then own
      else if sharedFile.Holds? then Field(sharedFile.store.root, "refresh_token")
      else ""
    }

    /** A refresh that has the lock posts a token. */
    predicate WillPost()
      reads `authFile, `sharedFile
    {
      !authFile.Garbled? && StoredToken() != ""
    }

    /** `_refresh_nous_oauth_locked`. An overflowing date of expiry escapes after the exchange. */
    method RefreshLocked(portal: Portal, horizon: nat, disk: Disk) returns (r: Outcome)
      requires Valid() && pending.None?
      modifies `current, `issued, `log, `lost, `latest, `newestAccess, `authFile, `sharedFile, `pending
      ensures Valid()
      ensures log == if old(WillPost()) then old(log) + [PostOf(old(StoredToken()), old(current), portal, horizon)]
                     else old(log)
      ensures old(WillPost()) && PostOf(old(StoredToken()), old(current), portal, horizon).dropped ==> r.Raised?
      ensures r == Returned(true) && old(WillPost()) ==> pending.None? && Sound() && latest.Some? && newestAccess != ""
      ensures r == Returned(true) && !old(WillPost()) ==> old(StoredToken()) == ""
      ensures r.Raised? ==> portal.Answers? && Overflows(portal.lifetime, horizon)
      ensures r.Raised? ==> authFile == old(authFile) && sharedFile == old(sharedFile) && pending.None?
      ensures old(Sound()) && NeverDropped(log) ==> Sound()
      ensures Writes(disk) ==> pending.None?
      ensures old(WillPost()) && Rotates(old(StoredToken()), old(current), portal, horizon) && Writes(disk) ==>
                && r == Returned(true) && BothCarry(authFile, sharedFile, Strip(portal.access), current)
                && RestKept(old(authFile), authFile)
    {
      hide Mints, NeverReused, WasReplaced, Strip, NeverDropped, DropsLast, StuckOn, Writes, BothCarry;
      NothingToStrip();
      if authFile.Garbled? { return Returned(false); }
      var store := if authFile.Missing? then Store(None, map[]) else authFile.store;
      var nous := NousState(store);
      if Field(nous, "refresh_token") == "" {
        if sharedFile.Garbled? { return Returned(false); }
        var shared := if sharedFile.Missing? then map[] else sharedFile.store.root;
        if Field(shared, "refresh_token") == "" {
          return Returned(true);
        }
        nous := nous + shared;
      }
      var token := Field(nous, "refresh_token");
      StripTwice(if "refresh_token" in nous then nous["refresh_token"] else "");
      assert token == StoredToken();
      assert Sound() && latest.Some? ==> token == latest.value && nous == NousState(store);
      r := ExchangeAndKeep(store, nous, token, portal, horizon, disk);
    }

    /** The posted token is the portal's, and the answer arrives with an access token and a date that does not
        overflow. */
    ghost predicate Rotates(token: string, valid: string, portal: Portal, horizon: nat) {
      && token == valid && portal.Answers? && portal.arrives && Strip(portal.access) != ""
      && !Overflows(portal.lifetime, horizon)
    }

    /** The exchange, and what becomes of the answer. */
    method ExchangeAndKeep(store: Store, nous: Row, token: string, portal: Portal, horizon: nat, disk: Disk)
      returns (r: Outcome)
      requires Valid() && pending.None? && token == Strip(token) == StoredToken() != ""
      requires Sound() ==>
                 && (latest.Some? ==> token == latest.value)
                 && (newestAccess != "" ==> Field(nous, "agent_key") == newestAccess)
      modifies `current, `issued, `log, `lost, `latest, `newestAccess, `authFile, `sharedFile, `pending
      ensures Valid() && log == old(log) + [PostOf(token, old(current), portal, horizon)]
      ensures log[|log| - 1].dropped ==> r.Raised?
      ensures r == Returned(true) ==> pending.None? && Sound() && latest.Some? && newestAccess != ""
      ensures r.Raised? ==> portal.Answers? && Overflows(portal.lifetime, horizon)
      ensures r.Raised? ==> authFile == old(authFile) && sharedFile == old(sharedFile) && pending.None?
      ensures old(Sound()) && NeverDropped(log) ==> Sound()
      ensures Writes(disk) ==> pending.None?
      ensures Rotates(token, old(current), portal, horizon) && Writes(disk) ==>
                && r == Returned(true) && BothCarry(authFile, sharedFile, Strip(portal.access), current)
                && authFile.Holds? && authFile.store.root == store.root
    {
      hide Mints, NeverReused, Strip, NeverDropped, DropsLast, StuckOn, WasReplaced, Writes, BothCarry;
      ghost var post, wasSound := PostOf(token, current, portal, horizon), Sound();
      ReusedSnoc(log, post);
      ReplacedSnoc(log, post);
      if !Sound() {
        StuckSnoc(log, post);
      } else if post.dropped {
        assert !WasReplaced(log, token);
        DroppedNow(log, post);
      }
      var reply := Exchange(token, portal, horizon);
      if reply.Failed? || (reply.access == "" && reply.refresh == "") {
        return Returned(false);
      }
      if Overflows(reply.lifetime, horizon) {
        return Raised;
      }
      var ok := TakeAnswer(store, nous, token, reply, disk);
      r := Returned(ok);
    }

    /** An answer replaces the stored pair. */
    method TakeAnswer(store: Store, nous: Row, token: string, reply: Reply, disk: Disk) returns (ok: bool)
      requires PortalOk() && pending.None? && reply.Answered? && (reply.access != "" || reply.refresh != "")
      requires Strip(reply.access) == reply.access && Strip(reply.refresh) == reply.refresh
      requires token == Strip(token) != "" && current == OrElse(reply.refresh, token)
      requires newestAccess != "" ==> Field(nous, "agent_key") == newestAccess
      requires NeverReused(log) && NeverDropped(log)
      modifies `latest, `newestAccess, `authFile, `sharedFile, `pending
      ensures Valid() && Sound()
      ensures ok ==> pending.None? && latest.Some? && newestAccess != ""
      ensures ok <==> Writes(disk) && reply.access != ""
      ensures Writes(disk) ==> pending.None?
      ensures ok ==> BothCarry(authFile, sharedFile, reply.access, current)
      ensures ok ==> authFile.Holds? && authFile.store.root == store.root
    {
      hide NeverReused, NeverDropped, Writes, BothCarry, Strip;
      if reply.access != "" { UpdatedCarry(store, nous, reply.access, OrElse(reply.refresh, token)); }
      var next := OrElse(reply.refresh, token);
      var updated := Updated(nous, reply.access, next);
      UpdatedFields(nous, reply.access, next);
      latest := Some(next);
      if reply.access != "" { newestAccess := reply.access; }
      ok := PersistRotated(PendingPersist(store.(nous := Some(updated)), SharedRow(updated, next)), disk);
      if reply.access == "" {
        return false;
      }
    }

    /** `refresh_nous_oauth`: with a pair waiting in memory only the disk write is retried. */
    method Refresh(lock: Lock, flushLock: Lock, portal: Portal, horizon: nat, disk: Disk) returns (r: Outcome)
      requires Valid()
      modifies `current, `issued, `log, `lost, `latest, `newestAccess, `authFile, `sharedFile, `pending
      ensures Valid() && (old(Sound()) && NeverDropped(log) ==> Sound())
      ensures log == if old(pending).None? && Held(lock) && old(WillPost())
                     then old(log) + [PostOf(old(StoredToken()), old(current), portal, horizon)] else old(log)
      ensures (old(pending).None? && Held(lock) && old(WillPost())
               && PostOf(old(StoredToken()), old(current), portal, horizon).dropped) ==>
                r.Raised? && authFile == old(authFile) && sharedFile == old(sharedFile)
      ensures (old(pending).None? && lock.Acquired? && old(WillPost()) && Writes(disk)
               && Rotates(old(StoredToken()), old(current), portal, horizon)) ==>
                && r == Returned(true) && pending.None?
                && BothCarry(authFile, sharedFile, Strip(portal.access), current) && RestKept(old(authFile), authFile)
      ensures Writes(disk) && (old(pending).None? || Held(flushLock)) ==> pending.None?
    {
      hide Writes, BothCarry;
      if pending.Some? {
        r := FlushPendingPersist(flushLock, disk);
        return;
      }
      match lock
      case TimedOut => return Returned(false);
      case Broken => return Raised;
      case _ =>
        r := RefreshLocked(portal, horizon, disk);
        if lock.Unreleased? { return Raised; }
    }

    /** `refresh_nous_oauth_on_startup`. */
    method RefreshOnStartup(lock: Lock, flushLock: Lock, portal: Portal, horizon: nat, disk: Disk)
      returns (r: Outcome)
      requires Valid()
      modifies this
      ensures Valid() && (old(startupRefreshDone) ==> r == Returned(true) && log == old(log))
      ensures old(Sound()) && NeverDropped(log) ==> Sound()
      ensures log == if !old(startupRefreshDone) && old(pending).None? && Held(lock) && old(WillPost())
                     then old(log) + [PostOf(old(StoredToken()), old(current), portal, horizon)] else old(log)
      ensures startupRefreshDone == (old(startupRefreshDone) || r == Returned(true))
    {
      hide Valid, Sound, WillPost;
      if startupRefreshDone { return Returned(true); }
      r := Refresh(lock, flushLock, portal, horizon, disk);
      if r == Returned(true) {
        startupRefreshDone := true;
      }
    }

    /** `resolve_nous_api_key` without `NOUS_API_KEY`: the newest access token, wherever it is kept; before one was
        received, what the files hold. */
    method ResolveApiKey(flushLock: Lock, disk: Disk) returns (token: Option<string>)
      requires Valid()
      modifies `authFile, `sharedFile, `pending
      ensures Valid() && (old(Sound()) ==> Sound())
      ensures token.None? ==> old(pending).Some? && (flushLock == Broken || flushLock == Unreleased)
      ensures token.Some? && Sound() && newestAccess != "" ==> token.value == newestAccess
      ensures pending == if Held(flushLock) && Writes(disk) then None else old(pending)
      ensures old(pending).None? ==> token == Some(OrElse(TokenFromFile(authFile), TokenFromFile(sharedFile)))
    {
      hide NeverReused, NeverDropped, StuckOn, WasReplaced, Mints, Writes;
      if pending.Some? {
        var r := FlushPendingPersist(flushLock, disk);
        if r.Raised? { return None; }
      }
      if pending.Some? {
        var kept := OrElse(TokenFromMapping(pending.value.store), FirstToken(pending.value.shared.root));
        if kept != "" { return Some(kept); }
      }
      var own := TokenFromFile(authFile);
      if own != "" { return Some(own); }
      return Some(TokenFromFile(sharedFile));
    }
  }

  datatype Call =
    | DoRefresh(lock: Lock, flushLock: Lock, portal: Portal, horizon: nat, disk: Disk)
    | DoStartup(lock: Lock, flushLock: Lock, portal: Portal, horizon: nat, disk: Disk)
    | DoFlush(lock: Lock, disk: Disk)
    | DoResolve(lock: Lock, disk: Disk)

  /** The call can write what waits in memory: it takes the locks, and one of its attempts goes through. */
  ghost predicate Settles(call: Call) {
    match call
    case DoRefresh(_, flushLock, _, _, disk) => Held(flushLock) && Writes(disk)
    case DoStartup(_, _, _, _, _) => false
    case DoFlush(lock, disk) => Held(lock) && Writes(disk)
    case DoResolve(lock, disk) => Held(lock) && Writes(disk)
  }

  /** What is known of a token that was replaced: it is kept in memory or in `auth.json`, and with nothing in
      memory both files carry it; if no answer was lost it is the portal's. */
  ghost predicate Kept(current: string, pending: Option<PendingPersist>, ownFile: File, commonFile: File,
                       lostAnswer: bool) {
    var kept := if pending.Some? then Some(pending.value.store)
                else if ownFile.Holds? then Some(ownFile.store) else None;
    && kept.Some? && kept.value.nous.Some?
    && (!lostAnswer ==> Field(kept.value.nous.value, "refresh_token") == current)
    && (pending.None? ==>
          && commonFile.Holds?
          && Field(commonFile.store.root, "refresh_token") == Field(kept.value.nous.value, "refresh_token"))
  }

  /** Any calls in one process over any initial files, with the disk, the locks and the portal failing in any way:
      no refresh token is posted again once its post has brought a replacement if and only if nothing is posted
      after a replacement that was dropped because the date of expiry overflowed; as long as none was
      dropped, the token is kept; and a last call that can write leaves nothing waiting in memory. */
  method RunCalls(first: string, mint: nat -> string, authFile: File, sharedFile: File, calls: seq<Call>)
    returns (log: seq<Post>, current: string, pending: Option<PendingPersist>, ownFile: File, commonFile: File,
        lostAnswer: bool)
    requires Mints(mint, first)
    ensures NeverReused(log) <==> DropsLast(log)
    ensures NeverDropped(log) && (exists i :: 0 <= i < |log| && log[i].replaced) ==>
              Kept(current, pending, ownFile, commonFile, lostAnswer)
    ensures calls != [] && Settles(calls[|calls| - 1]) ==> pending.None?
    ensures |log| <= |calls|
  {
    hide Writes, NeverReused, NeverDropped, DropsLast, StuckOn, Mints, NousOAuth.PortalOk, NousOAuth.Stuck;
    var auth := new NousOAuth(first, mint, authFile, sharedFile);
    for n := 0 to |calls|
      invariant fresh(auth) && auth.Valid() && |auth.log| <= n
      invariant n > 0 && Settles(calls[n - 1]) ==> auth.pending.None?
    {
      match calls[n] {
        case DoRefresh(lock, flushLock, portal, horizon, disk) =>
          var r := auth.Refresh(lock, flushLock, portal, horizon, disk);
        case DoStartup(lock, flushLock, portal, horizon, disk) =>
          var r := auth.RefreshOnStartup(lock, flushLock, portal, horizon, disk);
        case DoFlush(lock, disk) => var r := auth.FlushPendingPersist(lock, disk);
        case DoResolve(lock, disk) => var token := auth.ResolveApiKey(lock, disk);
      }
    }
    log, current, pending := auth.log, auth.current, auth.pending;
    ownFile, commonFile, lostAnswer := auth.authFile, auth.sharedFile, auth.lost;
    auth.ReuseMeans();
    if NeverDropped(log) {
      auth.NotStuck();
      if i :| 0 <= i < |log| && log[i].replaced {
        assert WasReplaced(log, log[i].token);
      }
    }
  }

  /** Two refreshes: the first answer brings a new token but its lifetime overflows, and the second refresh
      posts the replaced token again. */
  method OverflowExample(first: string, mint: nat -> string, access: string, horizon: nat, disk: Disk)
    returns (log: seq<Post>)
    requires Mints(mint, first) && Strip(first) == first != ""
    ensures !NeverReused(log)
  {
    hide NousOAuth.Valid, NousOAuth.Sound, Mints;
    var row: Row := map["refresh_token" := first];
    assert Field(row, "refresh_token") == first;
    var auth := new NousOAuth(first, mint, Holds(Store(Some(row), map[])), Missing);
    assert NousState(Store(Some(row), map[])) == row;
    assert auth.StoredToken() == first;
    var portal := Answers(access, NewToken, true, Number(horizon + 1));
    var r := auth.Refresh(Acquired, Acquired, portal, horizon, disk);
    assert auth.log == [Post(first, true, true)];
    auth.DroppedStays(first);
    r := auth.Refresh(Acquired, Acquired, portal, horizon, disk);
    log := auth.log;
    assert log[0] == Post(first, true, true) && |log| == 2 && log[1].token == first;
  }
}
