/** backend/models/Users/User.js: the User record and its defaults, the soft-delete statics,
    the `pre("save")` password hook, the `pre(/^find/)` deleted-filter, and the document
    methods for password staleness and reset / verification tokens.

    bcrypt, SHA-256 and `crypto.randomBytes` are not computed: a bcrypt hash is the
    constructor `Bcrypt(previous value, salt)`, a SHA-256 hex digest is the injective
    constructor `Sha256Hex(input)`, and the random token text is a parameter. */
module UserModel {
  import opened Js
  import opened Mongo

  datatype Role = RoleUser | RoleAdmin

  datatype AccountLevel = Bronze | Silver | Gold

  /** `crypto.createHash("sha256").update(input).digest("hex")`: distinct inputs, distinct digests. */
  datatype Digest = Sha256Hex(input: string)

  /** What the `password` field holds: the text as assigned, or `bcrypt.hash` of the previous value. */
  datatype Password = Plain(text: string) | Bcrypt(hashed: Password, salt: nat)

  /** The persisted user. Dates are milliseconds since the epoch; an unset date is None.
      Profile pictures, bio, location, gender and notification preferences are not modelled. */
  datatype User = User(
    username: string,
    email: string,
    password: Password,
    role: Role,
    passwordChangedAt: Option<int>,
    lastLogin: int,
    isVerified: bool,
    isActive: bool,
    isDeleted: bool,
    accountLevel: AccountLevel,
    profileViewers: seq<Id>,
    followers: seq<Id>,
    following: seq<Id>,
    blockedUsers: seq<Id>,
    posts: seq<Id>,
    likedPosts: seq<Id>,
    passwordResetToken: Option<Digest>,
    passwordResetExpires: Option<int>,
    accountVerificationToken: Option<Digest>,
    accountVerificationExpires: Option<int>,
    createdAt: int,
    updatedAt: int)

  /** `10 * 60 * 1000`: reset and verification tokens live ten minutes. */
  const TokenLifetimeMs := 600000

  /** `new User({ username, email, password })` at time `now`, with the schema's defaults. */
  function NewUser(username: string, email: string, password: string, now: int): (u: User)
    ensures u.username == Trim(username) && u.email == email && u.password == Plain(password)
    ensures u.role == RoleUser && u.accountLevel == Bronze
    ensures !u.isVerified && u.isActive && !u.isDeleted
    ensures u.passwordChangedAt.None? && u.lastLogin == now
    ensures u.passwordResetToken.None? && u.passwordResetExpires.None?
    ensures u.accountVerificationToken.None? && u.accountVerificationExpires.None?
    ensures u.followers == u.following == u.blockedUsers == u.profileViewers == u.posts == u.likedPosts == []
  {
    User(Trim(username), email, Plain(password), RoleUser, None, now, false, true, false, Bronze,
         [], [], [], [], [], [], None, None, None, None, now, now)
  }

  // ---------------------------------------------------------------------------
  // pre(/^find/): the deleted-filter
  // ---------------------------------------------------------------------------

  /** The filter `{ isDeleted: { $ne: true } }` that the hook adds unless the query sets `skipDeleted`. */
  function FindFilter(skipDeleted: bool): User -> bool
  {
    (u: User) => skipDeleted || !u.isDeleted
  }

  /** `User.findById(id)` (also `findOne`, `find`, `findByIdAndUpdate`, `findByIdAndDelete`). */
  function FindUserById(users: map<Id, User>, id: Id, skipDeleted: bool): (r: Option<User>)
    ensures r.Some? ==> id in users && r.value == users[id]
    ensures r.Some? ==> skipDeleted || !r.value.isDeleted
    ensures r.None? <==> id !in users || (!skipDeleted && users[id].isDeleted)
  {
    Lookup(users, id, FindFilter(skipDeleted))
  }

  // ---------------------------------------------------------------------------
  // Statics: softDeleteById, restoreById
  // ---------------------------------------------------------------------------

  function SoftDeleteUpdate(now: int): User -> User
  {
    (u: User) => u.(isDeleted := true, isActive := false, updatedAt := now)
  }

  function RestoreUpdate(now: int): User -> User
  {
    (u: User) => u.(isDeleted := false, isActive := true, updatedAt := now)
  }

  /** The store after `User.softDeleteById(id)` at `now`: only a user the find filter lets
      through is flagged deleted and inactive; every other field keeps its value. */
  function AfterSoftDelete(users: map<Id, User>, id: Id, now: int): (r: Updated<User>)
    ensures r.result.Some? <==> id in users && !users[id].isDeleted
    ensures r.result.None? ==> r.docs == users
    ensures r.result.Some? ==> r.docs == users[id := r.result.value]
    ensures r.result.Some? ==> r.result.value == users[id].(isDeleted := true, isActive := false, updatedAt := now)
  {
    UpdateById(users, id, FindFilter(false), SoftDeleteUpdate(now))
  }

  /** The store after `User.restoreById(id)` at `now`. Its `findByIdAndUpdate` is itself
      filtered, so a soft-deleted user is never matched: the query returns null and the
      store is unchanged. Only a user who is not deleted is matched, and for them the
      update can at most turn `isActive` back on. */
  function AfterRestore(users: map<Id, User>, id: Id, now: int): (r: Updated<User>)
    ensures id in users && users[id].isDeleted ==> r == Updated(users, None)
    ensures r.result.Some? <==> id in users && !users[id].isDeleted
    ensures r.result.Some? ==> r.docs == users[id := users[id].(isActive := true, updatedAt := now)]
  {
    var r := UpdateById(users, id, FindFilter(false), RestoreUpdate(now));
    assert r.result.Some? ==> users[id].(isDeleted := false) == users[id];
    r
  }

  /** Restoring right after a soft delete finds nothing: the user stays deleted. */
  lemma RestoreCannotUndoSoftDelete(users: map<Id, User>, id: Id, t1: int, t2: int)
    requires id in users && !users[id].isDeleted
    ensures AfterSoftDelete(users, id, t1).result.Some?
    ensures AfterRestore(AfterSoftDelete(users, id, t1).docs, id, t2).result.None?
    ensures AfterRestore(AfterSoftDelete(users, id, t1).docs, id, t2).docs[id].isDeleted
  {
    var deleted := AfterSoftDelete(users, id, t1).docs;
    assert deleted[id].isDeleted;
  }

  /** `userSchema.statics.softDeleteById`. */
  method SoftDeleteById(users: Collection<User>, id: Id, now: int) returns (r: Option<User>)
    modifies users
    ensures users.docs == AfterSoftDelete(old(users.docs), id, now).docs
    ensures r == AfterSoftDelete(old(users.docs), id, now).result
  {
    r := users.FindByIdAndUpdate(id, FindFilter(false), SoftDeleteUpdate(now));
  }

  /** `userSchema.statics.restoreById`. */
  method RestoreById(users: Collection<User>, id: Id, now: int) returns (r: Option<User>)
    modifies users
    ensures users.docs == AfterRestore(old(users.docs), id, now).docs
    ensures r == AfterRestore(old(users.docs), id, now).result
  {
    r := users.FindByIdAndUpdate(id, FindFilter(false), RestoreUpdate(now));
  }

  /** `restoreById` as evidently intended: its query sets `skipDeleted`, so the find filter lets
      it reach the soft-deleted user it exists to restore. */
  function AfterRestoreIntended(users: map<Id, User>, id: Id, now: int): (r: Updated<User>)
    ensures r.result.Some? <==> id in users
    ensures id !in users ==> r.docs == users
    ensures id in users ==> r.docs == users[id := users[id].(isDeleted := false, isActive := true, updatedAt := now)]
  {
    UpdateById(users, id, FindFilter(true), RestoreUpdate(now))
  }

  /** With the intended query, restoring undoes a soft delete: an active user who was deleted
      and restored is the user they were, but for `updatedAt`. */
  lemma RestoreIntendedUndoesSoftDelete(users: map<Id, User>, id: Id, t1: int, t2: int)
    requires id in users && !users[id].isDeleted && users[id].isActive
    ensures var deleted := AfterSoftDelete(users, id, t1).docs;
            deleted[id].isDeleted
            && AfterRestoreIntended(deleted, id, t2).docs == users[id := users[id].(updatedAt := t2)]
  {
    var deleted := AfterSoftDelete(users, id, t1).docs;
    assert deleted == users[id := users[id].(isDeleted := true, isActive := false, updatedAt := t1)];
    assert deleted[id := deleted[id].(isDeleted := false, isActive := true, updatedAt := t2)] == users[id := users[id].(updatedAt := t2)];
  }

  // ---------------------------------------------------------------------------
  // pre("save"), isPasswordMatch, changedPasswordAfter
  // ---------------------------------------------------------------------------

  /** The document after the `pre("save")` hook at time `now`. */
  function PreSaved(u: User, isNew: bool, passwordModified: bool, salt: nat, now: int): (r: User)
    ensures !passwordModified ==> r == u
    ensures passwordModified ==> r.password == Bcrypt(u.password, salt)
    ensures r.passwordChangedAt == if passwordModified && !isNew then Some(now - 1000) else u.passwordChangedAt
    ensures r == u.(password := r.password, passwordChangedAt := r.passwordChangedAt)
  {
    if !passwordModified then u
    else
      var hashed := u.(password := Bcrypt(u.password, salt));
      if isNew then hashed else hashed.(passwordChangedAt := Some(now - 1000))
  }

  /** `bcrypt.compare(entered, stored)`: re-hash `entered` with the stored salt and compare.
      A value that is not a bcrypt hash never matches. */
  predicate PasswordMatches(stored: Password, entered: string)
  {
    stored.Bcrypt? && stored == Bcrypt(Plain(entered), stored.salt)
  }

  /** After a password is assigned and saved, the saved document matches exactly that password. */
  lemma SavedPasswordMatches(u: User, isNew: bool, salt: nat, now: int, p: string, q: string)
    ensures PasswordMatches(PreSaved(u.(password := Plain(p)), isNew, true, salt, now).password, q) <==> q == p
  {
  }

  /** `changedPasswordAfter(JWTTimestamp)`: false without `passwordChangedAt`, otherwise
      whether the token's `iat` (seconds) lies before `parseInt(passwordChangedAt / 1000)`. */
  predicate ChangedAfter(u: User, jwtTimestamp: int)
  {
    u.passwordChangedAt.Some? && jwtTimestamp < TruncDiv(u.passwordChangedAt.value, 1000)
  }

  /** Saving a new password on an existing user at `now` rejects exactly the tokens issued
      before second `now / 1000 - 1`: those of the second before the change still pass. */
  lemma {:induction false} PasswordChangeStaleWindow(u: User, salt: nat, now: int, iat: int)
    requires now >= 1000
    ensures ChangedAfter(PreSaved(u, false, true, salt, now), iat) <==> iat < now / 1000 - 1
  {
    var r := PreSaved(u, false, true, salt, now);
    assert r.passwordChangedAt == Some(now - 1000);
    assert (now - 1000) / 1000 == now / 1000 - 1;
  }

  /** A user created with a password never has `passwordChangedAt`, so no token is stale for them. */
  lemma NewUserNeverStale(username: string, email: string, password: string, salt: nat, now: int, iat: int)
    ensures !ChangedAfter(PreSaved(NewUser(username, email, password, now), true, true, salt, now), iat)
  {
  }

  // ---------------------------------------------------------------------------
  // Reset and verification tokens
  // ---------------------------------------------------------------------------

  /** The document after `generatePasswordResetToken()` drew `raw` at time `now`. */
  function WithPasswordResetToken(u: User, raw: string, now: int): User
  {
    u.(passwordResetToken := Some(Sha256Hex(raw)), passwordResetExpires := Some(now + TokenLifetimeMs))
  }

  /** The document after `generateAccountVerificationToken()` drew `raw` at time `now`. */
  function WithAccountVerificationToken(u: User, raw: string, now: int): User
  {
    u.(accountVerificationToken := Some(Sha256Hex(raw)), accountVerificationExpires := Some(now + TokenLifetimeMs))
  }

  /** The document after `clearTokens()`. */
  function TokensCleared(u: User): User
  {
    u.(passwordResetToken := None, passwordResetExpires := None,
       accountVerificationToken := None, accountVerificationExpires := None)
  }

  /** The stored-digest lookup a reset flow runs at time `at`:
      `{ passwordResetToken: sha256(presented), passwordResetExpires: { $gt: at } }`. */
  predicate AcceptsResetToken(u: User, presented: string, at: int)
  {
    u.passwordResetToken == Some(Sha256Hex(presented)) && u.passwordResetExpires.Some? && at < u.passwordResetExpires.value
  }

  /** The same lookup for account verification. */
  predicate AcceptsVerificationToken(u: User, presented: string, at: int)
  {
    u.accountVerificationToken == Some(Sha256Hex(presented)) && u.accountVerificationExpires.Some?
    && at < u.accountVerificationExpires.value
  }

  /** Only the raw token handed out matches the stored digest, and only for ten minutes. */
  lemma ResetTokenRoundTrip(u: User, raw: string, now: int, presented: string, at: int)
    ensures AcceptsResetToken(WithPasswordResetToken(u, raw, now), presented, at) <==> presented == raw && at < now + TokenLifetimeMs
    ensures AcceptsVerificationToken(WithAccountVerificationToken(u, raw, now), presented, at) <==> presented == raw && at < now + TokenLifetimeMs
  {
  }

  /** Issuing one kind of token leaves the other kind's acceptance as it was, and neither
      touches the password, the flags or the staleness check. */
  lemma TokensIndependent(u: User, raw: string, now: int, presented: string, at: int, iat: int)
    ensures AcceptsVerificationToken(WithPasswordResetToken(u, raw, now), presented, at) == AcceptsVerificationToken(u, presented, at)
    ensures AcceptsResetToken(WithAccountVerificationToken(u, raw, now), presented, at) == AcceptsResetToken(u, presented, at)
    ensures var r := WithPasswordResetToken(u, raw, now);
            r.password == u.password && r.isActive == u.isActive && r.isDeleted == u.isDeleted
            && ChangedAfter(r, iat) == ChangedAfter(u, iat)
    ensures var v := WithAccountVerificationToken(u, raw, now);
            v.password == u.password && v.isVerified == u.isVerified && ChangedAfter(v, iat) == ChangedAfter(u, iat)
  {
  }

  /** After `clearTokens()` no presented token is accepted, and clearing undoes issuing. */
  lemma ClearTokensRevokes(u: User, raw: string, now: int, presented: string, at: int)
    ensures !AcceptsResetToken(TokensCleared(u), presented, at)
    ensures !AcceptsVerificationToken(TokensCleared(u), presented, at)
    ensures TokensCleared(WithPasswordResetToken(u, raw, now)) == TokensCleared(u)
    ensures TokensCleared(WithAccountVerificationToken(u, raw, now)) == TokensCleared(u)
  {
  }

  /** An in-memory Mongoose user document: its fields, whether it has never been saved,
      and whether `password` was assigned since the last save. */
  class UserDocument {
    var doc: User
    var isNew: bool
    var passwordModified: bool

    /** `new User(fields)`: unsaved, with every assigned path modified. */
    constructor (u: User)
      ensures doc == u && isNew && passwordModified
    {
      doc := u;
      isNew := true;
      passwordModified := true;
    }

    /** `user.password = p`. */
    method SetPassword(p: string)
      modifies this`doc, this`passwordModified
      ensures doc == old(doc).(password := Plain(p)) && passwordModified
    {
      doc := doc.(password := Plain(p));
      passwordModified := true;
    }

    /** The `pre("save")` hook: hash a modified password with a fresh salt and, for a
        document that was saved before, set `passwordChangedAt` one second in the past. */
    method PreSave(salt: nat, now: int)
      modifies this`doc
      ensures doc == PreSaved(old(doc), isNew, passwordModified, salt, now)
    {
      if !passwordModified {
        return;
      }
      doc := doc.(password := Bcrypt(doc.password, salt));
      if !isNew {
        doc := doc.(passwordChangedAt := Some(now - 1000));
      }
    }

    /** `isPasswordMatch(enteredPassword)`. */
    method IsPasswordMatch(entered: string) returns (b: bool)
      ensures b <==> PasswordMatches(doc.password, entered)
    {
      b := doc.password.Bcrypt? && doc.password == Bcrypt(Plain(entered), doc.password.salt);
    }

    /** `changedPasswordAfter(JWTTimestamp)`. */
    method ChangedPasswordAfter(jwtTimestamp: int) returns (b: bool)
      ensures b <==> ChangedAfter(doc, jwtTimestamp)
    {
      if doc.passwordChangedAt.Some? {
        var changedTimestamp := TruncDiv(doc.passwordChangedAt.value, 1000);
        return jwtTimestamp < changedTimestamp;
      }
      return false;
    }

    /** `generatePasswordResetToken()`, where `raw` is the hex of `crypto.randomBytes(20)`. */
    method GeneratePasswordResetToken(raw: string, now: int) returns (token: string)
      modifies this`doc
      ensures doc == WithPasswordResetToken(old(doc), raw, now) && token == raw
    {
      doc := doc.(passwordResetToken := Some(Sha256Hex(raw)));
      doc := doc.(passwordResetExpires := Some(now + 10 * 60 * 1000));
      token := raw;
    }

    /** `generateAccountVerificationToken()`, where `raw` is the hex of `crypto.randomBytes(20)`. */
    method GenerateAccountVerificationToken(raw: string, now: int) returns (token: string)
      modifies this`doc
      ensures doc == WithAccountVerificationToken(old(doc), raw, now) && token == raw
    {
      doc := doc.(accountVerificationToken := Some(Sha256Hex(raw)));
      doc := doc.(accountVerificationExpires := Some(now + 10 * 60 * 1000));
      token := raw;
    }

    /** `clearTokens()`. */
    method ClearTokens()
      modifies this`doc
      ensures doc == TokensCleared(old(doc))
    {
      doc := doc.(passwordResetToken := None);
      doc := doc.(passwordResetExpires := None);
      doc := doc.(accountVerificationToken := None);
      doc := doc.(accountVerificationExpires := None);
    }
  }
}
