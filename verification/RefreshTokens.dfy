/**
 Refresh-token families: rotation on every use, and the whole family revoked when a token
 is presented twice (services/auth/internal/repo/refresh.go, services/auth/internal/repo/user.go:56-80),
 the pattern of section 4.14.2 of RFC 9700. Each method is one serializable transaction.
 */
module RefreshTokens {
  import opened Clock
  import opened Collections

  type UserId = nat
  type TokenId = nat
  type Hash = nat
  type FamilyId = nat

  datatype Token = Token(
    id: TokenId,
    user: UserId,
    hash: Hash,
    device: string,
    family: FamilyId,
    revokedAt: Option<Time>,
    expiresAt: Time)

  datatype Error = TokenNotFound | TokenReuse | TokenExpired | DeviceMismatch | UniqueViolation

  datatype Rotation = Rotation(user: UserId, family: FamilyId, device: string)

  datatype Audit = Audit(user: UserId, family: FamilyId)

  datatype Db = Db(tokens: seq<Token>, banned: set<UserId>, audit: seq<Audit>)

  const EMPTY: Db := Db([], {}, [])

  predicate Live(t: Token) { t.revokedAt.None? }

  /** The row with a hash; the column is unique. */
  function Find(tokens: seq<Token>, hash: Hash): Option<nat> {
    if tokens == [] then None
    else if tokens[|tokens| - 1].hash == hash then Some(|tokens| - 1)
    else Find(tokens[..|tokens| - 1], hash)
  }

  predicate Taken(tokens: seq<Token>, id: TokenId, hash: Hash) {
    exists i :: 0 <= i < |tokens| && (tokens[i].id == id || tokens[i].hash == hash)
  }

  /** Revokes the live tokens that `which` selects. */
  function Revoke(now: Time, which: Token -> bool): Token -> Token {
    (t: Token) => if Live(t) && which(t) then t.(revokedAt := Some(now)) else t
  }

  function OfFamily(family: FamilyId): Token -> bool { (t: Token) => t.family == family }

  function OfUser(user: UserId): Token -> bool { (t: Token) => t.user == user }

  function InsertTx(db: Db, t: Token): Result<Db, Error> {
    if Taken(db.tokens, t.id, t.hash) then Err(UniqueViolation) else Ok(db.(tokens := db.tokens + [t]))
  }

  /** The new tables and the answer: the revocations of a refused rotation are committed too. */
  function RotateTx(db: Db, oldHash: Hash, device: string, newId: TokenId, newHash: Hash, newExpiresAt: Time, now: Time)
    : (Db, Result<Rotation, Error>)
  {
    match Find(db.tokens, oldHash)
    case None => (db, Err(TokenNotFound))
    case Some(i) =>
      assert i < |db.tokens| by { FindFinds(db.tokens, oldHash); }
      var t := db.tokens[i];
      if !Live(t) then
        (db.(tokens := Map(db.tokens, Revoke(now, OfFamily(t.family))), audit := db.audit + [Audit(t.user, t.family)]),
         Err(TokenReuse))
      else if t.expiresAt <= now then
        (db.(tokens := db.tokens[i := t.(revokedAt := Some(now))]), Err(TokenExpired))
      else if t.device != device then (db, Err(DeviceMismatch))
      else if Taken(db.tokens, newId, newHash) then (db, Err(UniqueViolation))
      else
        (db.(tokens := db.tokens[i := t.(revokedAt := Some(now))]
                       + [Token(newId, t.user, newHash, t.device, t.family, None, newExpiresAt)]),
         Ok(Rotation(t.user, t.family, t.device)))
  }

  function RevokeFamilyTx(db: Db, hash: Hash, now: Time): (Db, Option<UserId>) {
    match Find(db.tokens, hash)
    case None => (db, None)
    case Some(i) =>
      assert i < |db.tokens| by { FindFinds(db.tokens, hash); }
      (db.(tokens := Map(db.tokens, Revoke(now, OfFamily(db.tokens[i].family)))), Some(db.tokens[i].user))
  }

  function BanTx(db: Db, user: UserId, now: Time): Db {
    db.(tokens := Map(db.tokens, Revoke(now, OfUser(user))), banned := db.banned + {user})
  }

  lemma {:induction false} FindFinds(tokens: seq<Token>, hash: Hash)
    ensures Find(tokens, hash).Some? ==> Find(tokens, hash).value < |tokens| && tokens[Find(tokens, hash).value].hash == hash
    ensures Find(tokens, hash).None? ==> forall i :: 0 <= i < |tokens| ==> tokens[i].hash != hash
  {
    if tokens != [] {
      FindFinds(tokens[..|tokens| - 1], hash);
      assert forall i :: 0 <= i < |tokens| - 1 ==> tokens[..|tokens| - 1][i] == tokens[i];
    }
  }

  class RefreshRepo {
    var tokens: seq<Token>
    var banned: set<UserId>
    var audit: seq<Audit>

    ghost function Tables(): Db
      reads this
    {
      Db(tokens, banned, audit)
    }

    constructor ()
      ensures Tables() == EMPTY
    {
      tokens, banned, audit := [], {}, [];
    }

    method Insert(id: TokenId, user: UserId, hash: Hash, device: string, family: FamilyId, expiresAt: Time)
      returns (r: Result<(), Error>)
      modifies this`tokens
      ensures match InsertTx(old(Tables()), Token(id, user, hash, device, family, None, expiresAt))
              case Err(e) => r == Err(e) && Tables() == old(Tables())
              case Ok(db) => r.Ok? && Tables() == db
    {
      if Taken(tokens, id, hash) {
        return Err(UniqueViolation);
      }
      tokens := tokens + [Token(id, user, hash, device, family, None, expiresAt)];
      r := Ok(());
    }

    method Rotate(oldHash: Hash, device: string, newId: TokenId, newHash: Hash, newExpiresAt: Time, now: Time)
      returns (r: Result<Rotation, Error>)
      modifies this
      ensures (Tables(), r) == RotateTx(old(Tables()), oldHash, device, newId, newHash, newExpiresAt, now)
    {
      var found := Find(tokens, oldHash);
      if found.None? {
        return Err(TokenNotFound);
      }
      FindFinds(tokens, oldHash);
      var i := found.value;
      var t := tokens[i];
      if t.revokedAt.Some? {
        tokens := Map(tokens, Revoke(now, OfFamily(t.family)));
        audit := audit + [Audit(t.user, t.family)];
        return Err(TokenReuse);
      }
      if t.expiresAt <= now {
        tokens := tokens[i := t.(revokedAt := Some(now))];
        return Err(TokenExpired);
      }
      if t.device != device {
        return Err(DeviceMismatch);
      }
      if Taken(tokens, newId, newHash) {
        return Err(UniqueViolation);
      }
      tokens := tokens[i := t.(revokedAt := Some(now))];
      tokens := tokens + [Token(newId, t.user, newHash, t.device, t.family, None, newExpiresAt)];
      r := Ok(Rotation(t.user, t.family, t.device));
    }

    method RevokeFamily(hash: Hash, now: Time) returns (user: Option<UserId>)
      modifies this`tokens
      ensures (Tables(), user) == RevokeFamilyTx(old(Tables()), hash, now)
    {
      var found := Find(tokens, hash);
      if found.None? {
        return None;
      }
      FindFinds(tokens, hash);
      var t := tokens[found.value];
      tokens := Map(tokens, Revoke(now, OfFamily(t.family)));
      user := Some(t.user);
    }

    /** Returns how many tokens it revoked. */
    method BanUser(user: UserId, now: Time) returns (revoked: nat)
      modifies this`tokens, this`banned
      ensures Tables() == BanTx(old(Tables()), user, now)
      ensures revoked == |Filter(old(tokens), (t: Token) => Live(t) && t.user == user)|
    {
      revoked := |Filter(tokens, (t: Token) => Live(t) && t.user == user)|;
      tokens := Map(tokens, Revoke(now, OfUser(user)));
      banned := banned + {user};
    }
  }

  /* Runs */

  datatype Action =
    | Login(token: Token)
    | Present(hash: Hash, device: string, newId: TokenId, newHash: Hash, newExpiresAt: Time, now: Time)
    | Logout(hash: Hash, now: Time)
    | Ban(user: UserId, now: Time)

  predicate Known(db: Db, family: FamilyId) {
    exists i :: 0 <= i < |db.tokens| && db.tokens[i].family == family
  }

  ghost predicate Enabled(db: Db, a: Action) {
    match a
    case Login(t) => Live(t) && !Known(db, t.family) && InsertTx(db, t).Ok?  // a login starts a new family
    case _ => true
  }

  function Apply(db: Db, a: Action): Db {
    match a
    case Login(t) => if InsertTx(db, t).Ok? then InsertTx(db, t).value else db
    case Present(hash, device, newId, newHash, newExpiresAt, now) =>
      RotateTx(db, hash, device, newId, newHash, newExpiresAt, now).0
    case Logout(hash, now) => RevokeFamilyTx(db, hash, now).0
    case Ban(user, now) => BanTx(db, user, now)
  }

  ghost predicate Run(states: seq<Db>, actions: seq<Action>) {
    && |states| == |actions| + 1
    && states[0] == EMPTY
    && forall i {:trigger actions[i]} :: 0 <= i < |actions| ==>
         Enabled(states[i], actions[i]) && states[i + 1] == Apply(states[i], actions[i])
  }

  /** Every token of the family is revoked. */
  ghost predicate Dead(db: Db, family: FamilyId) {
    forall i :: 0 <= i < |db.tokens| && db.tokens[i].family == family ==> !Live(db.tokens[i])
  }

  /** Ids and hashes are unique; a family is one user on one device; only its newest token can be live. */
  ghost predicate Inv(db: Db) {
    forall i, j :: 0 <= i < j < |db.tokens| ==>
      && db.tokens[i].id != db.tokens[j].id && db.tokens[i].hash != db.tokens[j].hash
      && (db.tokens[i].family == db.tokens[j].family ==>
            db.tokens[i].user == db.tokens[j].user && db.tokens[i].device == db.tokens[j].device && !Live(db.tokens[i]))
  }

  /** Tokens are only added and revoked: whoever they belong to stays, and a revocation is never undone or redated. */
  ghost predicate Evolves(db: Db, db': Db) {
    && |db.tokens| <= |db'.tokens|
    && forall i :: 0 <= i < |db.tokens| ==>
         && db'.tokens[i] == db.tokens[i].(revokedAt := db'.tokens[i].revokedAt)
         && (!Live(db.tokens[i]) ==> db'.tokens[i].revokedAt == db.tokens[i].revokedAt)
  }

  /** Revoking some tokens keeps everything. */
  lemma RevokingKeepsInv(db: Db, db': Db)
    requires Inv(db) && Evolves(db, db') && |db'.tokens| == |db.tokens|
    ensures Inv(db')
  {
  }

  /** So does a new token, of a new family or of one of its kind that is dead. */
  lemma AddingKeepsInv(db: Db, db': Db, t: Token)
    requires Inv(db) && db'.tokens == db.tokens + [t] && !Taken(db.tokens, t.id, t.hash)
    requires forall i :: 0 <= i < |db.tokens| && db.tokens[i].family == t.family ==>
               !Live(db.tokens[i]) && db.tokens[i].user == t.user && db.tokens[i].device == t.device
    ensures Inv(db')
  {
  }

  lemma RotationKeepsInv(db: Db, hash: Hash, device: string, newId: TokenId, newHash: Hash, newExpiresAt: Time, now: Time)
    requires Inv(db)
    ensures var db' := RotateTx(db, hash, device, newId, newHash, newExpiresAt, now).0; Inv(db') && Evolves(db, db')
  {
    FindFinds(db.tokens, hash);
    var (db', r) := RotateTx(db, hash, device, newId, newHash, newExpiresAt, now);
    if r.Ok? {
      var i := Find(db.tokens, hash).value;
      var t := db.tokens[i];
      var revoked := db.(tokens := db.tokens[i := t.(revokedAt := Some(now))]);
      RevokingKeepsInv(db, revoked);
      var added := Token(newId, t.user, newHash, t.device, t.family, None, newExpiresAt);
      forall k | 0 <= k < |db.tokens| && db.tokens[k].family == t.family
        ensures !Live(revoked.tokens[k]) && db.tokens[k].user == t.user && db.tokens[k].device == t.device
      {
        assert k == i || k < i || i < k;
      }
      AddingKeepsInv(revoked, db', added);
    } else {
      RevokingKeepsInv(db, db');
    }
  }

  lemma StepKeepsInv(db: Db, a: Action, db': Db)
    requires Inv(db) && Enabled(db, a) && db' == Apply(db, a)
    ensures Inv(db') && Evolves(db, db')
  {
    match a
    case Login(t) => AddingKeepsInv(db, db', t);
    case Present(hash, device, newId, newHash, newExpiresAt, now) =>
      RotationKeepsInv(db, hash, device, newId, newHash, newExpiresAt, now);
    case Logout(hash, _) =>
      FindFinds(db.tokens, hash);
      RevokingKeepsInv(db, db');
    case Ban(_, _) => RevokingKeepsInv(db, db');
  }

  lemma {:induction false} RunKeepsInv(states: seq<Db>, actions: seq<Action>, i: nat)
    requires Run(states, actions) && i < |states|
    ensures Inv(states[i])
  {
    if i > 0 {
      RunKeepsInv(states, actions, i - 1);
      StepKeepsInv(states[i - 1], actions[i - 1], states[i]);
    }
  }

  lemma {:induction false} RevocationIsPermanent(states: seq<Db>, actions: seq<Action>, i: nat, j: nat)
    requires Run(states, actions) && i <= j < |states|
    ensures Evolves(states[i], states[j])
  {
    if i < j {
      RevocationIsPermanent(states, actions, i, j - 1);
      RunKeepsInv(states, actions, j - 1);
      StepKeepsInv(states[j - 1], actions[j - 1], states[j]);
    }
  }

  /** No family ever has two live tokens, or two owners or devices. */
  lemma OneLiveTokenPerFamily(states: seq<Db>, actions: seq<Action>, i: nat, m: nat, n: nat)
    requires Run(states, actions) && i < |states| && m < n < |states[i].tokens|
    requires states[i].tokens[m].family == states[i].tokens[n].family
    ensures !(Live(states[i].tokens[m]) && Live(states[i].tokens[n]))
    ensures states[i].tokens[m].user == states[i].tokens[n].user && states[i].tokens[m].device == states[i].tokens[n].device
  {
    RunKeepsInv(states, actions, i);
  }

  /** A rotation revives nobody: it adds to a family that is alive. */
  lemma PresentKeepsDead(db: Db, a: Action, db': Db, family: FamilyId)
    requires Inv(db) && a.Present? && db' == Apply(db, a) && Dead(db, family)
    requires Find(db.tokens, a.hash).Some? ==> Find(db.tokens, a.hash).value < |db.tokens|
    ensures Dead(db', family)
  {
  }

  lemma StepKeepsDead(db: Db, a: Action, db': Db, family: FamilyId)
    requires Inv(db) && Enabled(db, a) && db' == Apply(db, a)
    requires Known(db, family) && Dead(db, family)
    ensures Known(db', family) && Dead(db', family)
  {
    StepKeepsInv(db, a, db');
    var k :| 0 <= k < |db.tokens| && db.tokens[k].family == family;
    assert db'.tokens[k].family == family;
    if a.Present? {
      FindFinds(db.tokens, a.hash);
      PresentKeepsDead(db, a, db', family);
    }
  }

  /** A family once dead stays dead. */
  lemma {:induction false} DeadForever(states: seq<Db>, actions: seq<Action>, i: nat, j: nat, family: FamilyId)
    requires Run(states, actions) && i <= j < |states|
    requires Known(states[i], family) && Dead(states[i], family)
    ensures Known(states[j], family) && Dead(states[j], family)
  {
    if i < j {
      DeadForever(states, actions, i, j - 1, family);
      RunKeepsInv(states, actions, j - 1);
      StepKeepsDead(states[j - 1], actions[j - 1], states[j], family);
    }
  }

  /** A rotation succeeds exactly for a live, unexpired token on its own device, and then moves
      the family on by one token; unless the generated id or hash collides. */
  lemma RotatesExactlyWhen(db: Db, k: nat, device: string, newId: TokenId, newHash: Hash, newExpiresAt: Time, now: Time)
    requires Inv(db) && k < |db.tokens| && !Taken(db.tokens, newId, newHash)
    ensures var t := db.tokens[k];
            var (db', r) := RotateTx(db, t.hash, device, newId, newHash, newExpiresAt, now);
            && (r.Ok? <==> Live(t) && now < t.expiresAt && t.device == device)
            && (r.Ok? ==> r.value == Rotation(t.user, t.family, t.device)
                          && |db'.tokens| == |db.tokens| + 1 && !Live(db'.tokens[k])
                          && Live(db'.tokens[|db.tokens|]) && db'.tokens[|db.tokens|].family == t.family)
            && (r.Err? && r.error != DeviceMismatch ==> Dead(db', t.family))
  {
    FindFinds(db.tokens, db.tokens[k].hash);
    var i := Find(db.tokens, db.tokens[k].hash).value;
    assert i == k;
  }

  /** Why a token is refused, the worst reason first, and a hash that no token has. */
  lemma RefusedBecause(db: Db, hash: Hash, device: string, newId: TokenId, newHash: Hash, newExpiresAt: Time, now: Time)
    requires Inv(db)
    ensures var (db', r) := RotateTx(db, hash, device, newId, newHash, newExpiresAt, now);
            && (r == Err(TokenNotFound) <==> forall k :: 0 <= k < |db.tokens| ==> db.tokens[k].hash != hash)
            && (r == Err(TokenNotFound) || r == Err(DeviceMismatch) || r == Err(UniqueViolation) ==> db' == db)
            && (r != Err(TokenReuse) ==> db'.audit == db.audit) && db'.banned == db.banned
            && forall k :: 0 <= k < |db.tokens| && db.tokens[k].hash == hash ==>
                 var t := db.tokens[k];
                 if !Live(t) then r == Err(TokenReuse)
                 else if t.expiresAt <= now then r == Err(TokenExpired)
                 else if t.device != device then r == Err(DeviceMismatch)
                 else r.Ok? || (r == Err(UniqueViolation) && Taken(db.tokens, newId, newHash))
  {
    FindFinds(db.tokens, hash);
  }

  /** The token given out takes over: presented next, on the same device, it rotates exactly until
      the expiry given with it, and is expired from then on. Neither its id nor its hash is free. */
  lemma SecondPresentation(db: Db, hash: Hash, device: string, newId: TokenId, newHash: Hash, newExpiresAt: Time, now: Time,
                           nextId: TokenId, nextHash: Hash, nextExpiry: Time, later: Time)
    requires Inv(db)
    requires var (db', r) := RotateTx(db, hash, device, newId, newHash, newExpiresAt, now);
             r.Ok? && !Taken(db'.tokens, nextId, nextHash)
    ensures var (db', r) := RotateTx(db, hash, device, newId, newHash, newExpiresAt, now);
            var second := RotateTx(db', newHash, device, nextId, nextHash, nextExpiry, later).1;
            && (if later < newExpiresAt then second == r else second == Err(TokenExpired))
            && nextId != newId && nextHash != newHash
  {
    RotationKeepsInv(db, hash, device, newId, newHash, newExpiresAt, now);
    FindFinds(db.tokens, hash);
    var db' := RotateTx(db, hash, device, newId, newHash, newExpiresAt, now).0;
    var n := |db.tokens|;
    assert db'.tokens[n].id == newId && db'.tokens[n].hash == newHash;
    RotatesExactlyWhen(db', n, device, nextId, nextHash, nextExpiry, later);
    RefusedBecause(db', newHash, device, nextId, nextHash, nextExpiry, later);
    hide Inv;
  }

  /* How long a token lasts */

  /** The step ends the `n`-th token, a live one: a logout of its family, a ban of its user, the replay
      of an older token of its family, or its own use, unless that was turned away for the device or
      for a collision of generated values. */
  ghost predicate Ends(db: Db, a: Action, n: nat)
    requires n < |db.tokens|
  {
    var t := db.tokens[n];
    match a
    case Login(_) => false
    case Logout(hash, _) => exists m :: 0 <= m < |db.tokens| && db.tokens[m].hash == hash && db.tokens[m].family == t.family
    case Ban(user, _) => user == t.user
    case Present(hash, device, newId, newHash, _, now) =>
      exists m :: 0 <= m < |db.tokens| && db.tokens[m].hash == hash && db.tokens[m].family == t.family
        && (m == n && now < t.expiresAt ==> device == t.device && !Taken(db.tokens, newId, newHash))
  }

  /** A step ends a live token or leaves it as it is. */
  lemma StepEndsOrKeeps(db: Db, a: Action, db': Db, n: nat)
    requires Inv(db) && Enabled(db, a) && db' == Apply(db, a) && n < |db.tokens| && Live(db.tokens[n])
    ensures n < |db'.tokens|
    ensures if Ends(db, a, n) then !Live(db'.tokens[n]) else db'.tokens[n] == db.tokens[n]
  {
    StepKeepsInv(db, a, db');
    if a.Present? {
      FindFinds(db.tokens, a.hash);
      PresentEndsOrKeeps(db, a, db', n);
    } else if a.Logout? {
      FindFinds(db.tokens, a.hash);
    }
  }

  lemma PresentEndsOrKeeps(db: Db, a: Action, db': Db, n: nat)
    requires Inv(db) && a.Present? && db' == Apply(db, a) && n < |db.tokens| && Live(db.tokens[n])
    requires var found := Find(db.tokens, a.hash);
             if found.Some? then found.value < |db.tokens| && db.tokens[found.value].hash == a.hash
             else forall i :: 0 <= i < |db.tokens| ==> db.tokens[i].hash != a.hash
    ensures n < |db'.tokens|
    ensures if Ends(db, a, n) then !Live(db'.tokens[n]) else db'.tokens[n] == db.tokens[n]
  {
    var found := Find(db.tokens, a.hash);
    if found.Some? {
      var i, t := found.value, db.tokens[found.value];
      assert forall m :: 0 <= m < |db.tokens| && db.tokens[m].hash == a.hash ==> m == i;
      assert i != n && t.family == db.tokens[n].family ==> !Live(t);
    }
    hide Find;
  }

  /** Some step from `i` up to `j` ended the token. */
  ghost predicate Ended(states: seq<Db>, actions: seq<Action>, i: nat, j: nat, n: nat)
    requires |states| == |actions| + 1 && j < |states|
  {
    exists k: nat :: i <= k < j && EndedBy(states, actions, k, n)
  }

  ghost predicate EndedBy(states: seq<Db>, actions: seq<Action>, k: nat, n: nat)
    requires |states| == |actions| + 1 && k < |actions|
  {
    n < |states[k].tokens| && Live(states[k].tokens[n]) && Ends(states[k], actions[k], n)
  }

  lemma {:induction false} LastsUntilEnded(states: seq<Db>, actions: seq<Action>, i: nat, j: nat, n: nat)
    requires Run(states, actions) && i <= j < |states| && n < |states[i].tokens| && Live(states[i].tokens[n])
    ensures n < |states[j].tokens|
    ensures if Ended(states, actions, i, j, n) then !Live(states[j].tokens[n]) else states[j].tokens[n] == states[i].tokens[n]
  {
    if i < j {
      LastsUntilEnded(states, actions, i, j - 1, n);
      assert Ended(states, actions, i, j, n) <==> Ended(states, actions, i, j - 1, n) || EndedBy(states, actions, j - 1, n);
      hide Ended;
      RunKeepsInv(states, actions, j - 1);
      StepKeepsInv(states[j - 1], actions[j - 1], states[j]);
      if Live(states[j - 1].tokens[n]) {
        StepEndsOrKeeps(states[j - 1], actions[j - 1], states[j], n);
      }
      hide Ends;
      hide Inv;
      hide Apply;
      hide Enabled;
    }
  }

  /** In every run: a token that is live lasts until a step ends it, and until then it rotates on its
      device exactly before the expiry it was given, by a login or by the last rotation of its family. */
  lemma UsableUntilExpiry(states: seq<Db>, actions: seq<Action>, i: nat, j: nat, n: nat,
                          device: string, nextId: TokenId, nextHash: Hash, nextExpiry: Time, later: Time)
    requires Run(states, actions) && i <= j < |states| && n < |states[i].tokens| && Live(states[i].tokens[n])
    requires !Taken(states[j].tokens, nextId, nextHash)
    ensures var t := states[i].tokens[n];
            var r := RotateTx(states[j], t.hash, device, nextId, nextHash, nextExpiry, later).1;
            if Ended(states, actions, i, j, n) then r == Err(TokenReuse)
            else if t.expiresAt <= later then r == Err(TokenExpired)
            else if t.device != device then r == Err(DeviceMismatch)
            else r == Ok(Rotation(t.user, t.family, t.device))
  {
    LastsUntilEnded(states, actions, i, j, n);
    RevocationIsPermanent(states, actions, i, j);
    RunKeepsInv(states, actions, j);
    RotatesExactlyWhen(states[j], n, device, nextId, nextHash, nextExpiry, later);
    RefusedBecause(states[j], states[i].tokens[n].hash, device, nextId, nextHash, nextExpiry, later);
    hide Ended;
    hide Inv;
    hide Apply;
    hide Enabled;
    hide RotateTx;
  }

  /** A login or a rotation makes the next token, live, with the hash, device and expiry asked for. */
  lemma GivenOut(db: Db, a: Action, db': Db)
    requires Inv(db) && Enabled(db, a) && db' == Apply(db, a)
    ensures |db'.tokens| > |db.tokens| ==> (a.Login? || a.Present?) && |db'.tokens| == |db.tokens| + 1
    ensures |db'.tokens| > |db.tokens| ==>
              var t := db'.tokens[|db.tokens|];
              && Live(t)
              && (a.Login? ==> t == a.token)
              && (a.Present? ==>
                    && t.id == a.newId && t.hash == a.newHash && t.expiresAt == a.newExpiresAt && t.device == a.device
                    && exists m :: 0 <= m < |db.tokens| && db.tokens[m].hash == a.hash && t.user == db.tokens[m].user
                         && t.family == db.tokens[m].family && db'.tokens[m] == db.tokens[m].(revokedAt := Some(a.now)))
  {
    if a.Present? {
      FindFinds(db.tokens, a.hash);
    }
  }

  /** A logout finds the user of the token it is given, if any token has that hash. */
  lemma LogoutFinds(db: Db, hash: Hash, now: Time)
    requires Inv(db)
    ensures var user := RevokeFamilyTx(db, hash, now).1;
            && (user == None <==> forall m :: 0 <= m < |db.tokens| ==> db.tokens[m].hash != hash)
            && forall m :: 0 <= m < |db.tokens| && db.tokens[m].hash == hash ==> user == Some(db.tokens[m].user)
  {
    FindFinds(db.tokens, hash);
  }

  /** Whatever a step revokes, it revokes at its own time. */
  lemma RevokedWhenItHappens(db: Db, a: Action, db': Db, n: nat)
    requires Inv(db) && Enabled(db, a) && db' == Apply(db, a) && n < |db.tokens| && Live(db.tokens[n])
    requires n < |db'.tokens| && !Live(db'.tokens[n])
    ensures !a.Login? && db'.tokens[n].revokedAt == Some(a.now)
  {
    if !a.Login? && !a.Ban? {
      FindFinds(db.tokens, a.hash);
    }
  }

  /** Any token of a family but its newest is a stolen or replayed one: presenting it ends the
      family for good, and is recorded. */
  lemma ReplayKillsFamily(states: seq<Db>, actions: seq<Action>, i: nat, j: nat, m: nat, n: nat)
    requires Run(states, actions) && i < j < |states| && actions[i].Present?
    requires m < n < |states[i].tokens| && states[i].tokens[m].family == states[i].tokens[n].family
    requires actions[i].hash == states[i].tokens[m].hash
    ensures RotateTx(states[i], actions[i].hash, actions[i].device, actions[i].newId, actions[i].newHash,
                     actions[i].newExpiresAt, actions[i].now).1 == Err(TokenReuse)
    ensures states[i + 1].audit == states[i].audit + [Audit(states[i].tokens[m].user, states[i].tokens[m].family)]
    ensures Dead(states[j], states[i].tokens[m].family)
  {
    RunKeepsInv(states, actions, i);
    var t := states[i].tokens[m];
    FindFinds(states[i].tokens, t.hash);
    StepKeepsInv(states[i], actions[i], states[i + 1]);
    assert states[i + 1].tokens[m].family == t.family;
    DeadForever(states, actions, i + 1, j, t.family);
  }

  /** After a logout, or a ban of its owner, a family never rotates again. */
  lemma RevokedFamiliesNeverRotate(states: seq<Db>, actions: seq<Action>, i: nat, j: nat, m: nat)
    requires Run(states, actions) && i < j < |actions| && m < |states[i].tokens|
    requires (actions[i].Logout? && actions[i].hash == states[i].tokens[m].hash)
          || (actions[i].Ban? && actions[i].user == states[i].tokens[m].user)
    requires actions[j].Present?
    ensures var r := RotateTx(states[j], actions[j].hash, actions[j].device, actions[j].newId, actions[j].newHash,
                              actions[j].newExpiresAt, actions[j].now).1;
            r.Ok? ==> r.value.family != states[i].tokens[m].family
  {
    RunKeepsInv(states, actions, i);
    var t := states[i].tokens[m];
    FindFinds(states[i].tokens, t.hash);
    StepKeepsInv(states[i], actions[i], states[i + 1]);
    assert states[i + 1].tokens[m].family == t.family;
    KilledBy(states[i], actions[i], m);
    DeadForever(states, actions, i + 1, j, t.family);
    FindFinds(states[j].tokens, actions[j].hash);
  }

  lemma KilledBy(db: Db, a: Action, m: nat)
    requires Inv(db) && m < |db.tokens|
    requires (a.Logout? && a.hash == db.tokens[m].hash) || (a.Ban? && a.user == db.tokens[m].user)
    ensures Dead(Apply(db, a), db.tokens[m].family)
  {
    FindFinds(db.tokens, db.tokens[m].hash);
    var db' := Apply(db, a);
    forall i | 0 <= i < |db'.tokens| && db'.tokens[i].family == db.tokens[m].family ensures !Live(db'.tokens[i]) {
      assert i == m || i < m || m < i;
    }
  }
}
