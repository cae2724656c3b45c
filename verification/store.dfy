/**
 * The bot's three tables and the coroutines that read and write them:
 * the allow-list (`allowed_users`), the invite codes (`invite_codes`, each
 * with its `used` flag) and the stored conversations (`user_context`, one
 * serialised list of turns per chat).
 *
 * `Db` is the content of the three tables as a value, and the functions on it
 * say what each statement does to that content; `Database` is the store the
 * handlers update in place, one method per coroutine.
 */
module Store {

  /** A Telegram chat or user id. */
  type UserId = int

  datatype Role = User | Assistant

  /** One `{'role': ..., 'content': ...}` entry of a stored conversation. */
  datatype Turn = Turn(role: Role, content: string)

  /**
   * The three tables: the allowed ids, each invite code with its `used`
   * flag, and each chat's conversation.
   */
  datatype Db = Db(allowed: set<UserId>, invites: map<string, bool>, contexts: map<UserId, seq<Turn>>)

  /** The empty store: no allowed user, no invite code, no conversation. */
  const EmptyDb: Db := Db({}, map[], map[])

  /** `INSERT INTO allowed_users`: afterwards the id is allowed; a second insert of the same id changes nothing. */
  function Grant(db: Db, id: UserId): (r: Db)
    ensures id in r.allowed
    ensures forall other :: other in r.allowed <==> other == id || other in db.allowed
    ensures r.invites == db.invites && r.contexts == db.contexts
  {
    db.(allowed := db.allowed + {id})
  }

  /** The `SELECT ... WHERE code = $1 AND used = FALSE` of `check_invite_code` finds a row. */
  predicate Redeemable(db: Db, code: string) {
    code in db.invites && !db.invites[code]
  }

  /**
   * What `check_invite_code` does to the store: a code that exists and is
   * unused is marked used; anything else leaves the store as it was.
   */
  function UseCode(db: Db, code: string): (r: Db)
    ensures !Redeemable(r, code)
    ensures Redeemable(db, code) ==> code in r.invites && r.invites[code]
    ensures !Redeemable(db, code) ==> r == db
    ensures r.invites.Keys == db.invites.Keys
    ensures forall c | c in db.invites && c != code :: r.invites[c] == db.invites[c]
    ensures r.allowed == db.allowed && r.contexts == db.contexts
  {
    if Redeemable(db, code) then db.(invites := db.invites[code := true]) else db
  }

  /**
   * What `save_invite_code` does: a code already in the table is left as it
   * is (used or not); a new one is inserted unused.
   */
  function StoreInvite(db: Db, code: string): (r: Db)
    ensures code in r.invites
    ensures code in db.invites ==> r == db
    ensures code !in db.invites ==> Redeemable(r, code)
    ensures r.invites.Keys == db.invites.Keys + {code}
    ensures forall c | c in db.invites :: r.invites[c] == db.invites[c]
    ensures r.allowed == db.allowed && r.contexts == db.contexts
  {
    if code in db.invites then db else db.(invites := db.invites[code := false])
  }

  /** What `get_context` returns: the stored conversation, or `[]` when there is none. */
  function LoadContext(db: Db, id: UserId): (turns: seq<Turn>)
    ensures id !in db.contexts ==> turns == []
  {
    if id in db.contexts then db.contexts[id] else []
  }

  /**
   * What `save_context` does: the upsert replaces the chat's whole
   * conversation, so reading it back gives exactly what was saved and every
   * other chat reads as before.
   */
  function StoreContext(db: Db, id: UserId, turns: seq<Turn>): (r: Db)
    ensures LoadContext(r, id) == turns
    ensures forall other | other != id :: LoadContext(r, other) == LoadContext(db, other)
    ensures r.contexts.Keys == db.contexts.Keys + {id}
    ensures r.allowed == db.allowed && r.invites == db.invites
  {
    db.(contexts := db.contexts[id := turns])
  }

  /**
   * The `DELETE FROM user_context` of `clear_history`: the chat then reads
   * as having no history, and every other chat reads as before.
   */
  function DropContext(db: Db, id: UserId): (r: Db)
    ensures id !in r.contexts && LoadContext(r, id) == []
    ensures forall other | other != id :: LoadContext(r, other) == LoadContext(db, other)
    ensures r.allowed == db.allowed && r.invites == db.invites
  {
    db.(contexts := db.contexts - {id})
  }

  /** Each table in place, one method per coroutine that touches it. */
  class Database {
    var allowedUsers: set<UserId>
    var inviteCodes: map<string, bool>
    var userContext: map<UserId, seq<Turn>>

    /** The tables' content as a value. */
    function State(): Db
      reads this
    {
      Db(allowedUsers, inviteCodes, userContext)
    }

    constructor(initial: Db)
      ensures State() == initial
    {
      allowedUsers := initial.allowed;
      inviteCodes := initial.invites;
      userContext := initial.contexts;
    }

    /** `is_user_allowed`: whether a row for the id exists. */
    method IsUserAllowed(chatId: UserId) returns (allowed: bool)
      ensures allowed <==> chatId in State().allowed
    {
      allowed := chatId in allowedUsers;
    }

    /** `add_user_to_allowed_list`. */
    method AddUserToAllowedList(chatId: UserId)
      modifies this
      ensures State() == Grant(old(State()), chatId)
    {
      allowedUsers := allowedUsers + {chatId};
    }

    /** `check_invite_code`: true exactly when the code was there unused, which it marks used. */
    method CheckInviteCode(code: string) returns (valid: bool)
      modifies this
      ensures valid <==> Redeemable(old(State()), code)
      ensures State() == UseCode(old(State()), code)
    {
      valid := code in inviteCodes && !inviteCodes[code];
      if valid {
        inviteCodes := inviteCodes[code := true];
      }
    }

    /** `save_invite_code`: inserts the code unless it already exists. */
    method SaveInviteCode(code: string)
      modifies this
      ensures State() == StoreInvite(old(State()), code)
    {
      if code in inviteCodes {
        return;
      }
      inviteCodes := inviteCodes[code := false];
    }

    /** `save_context`: the upsert of the chat's whole conversation. */
    method SaveContext(chatId: UserId, context: seq<Turn>)
      modifies this
      ensures State() == StoreContext(old(State()), chatId, context)
    {
      userContext := userContext[chatId := context];
    }

    /** `get_context`. */
    method GetContext(chatId: UserId) returns (context: seq<Turn>)
      ensures context == LoadContext(State(), chatId)
    {
      if chatId in userContext {
        context := userContext[chatId];
      } else {
        context := [];
      }
    }

    /** The `DELETE FROM user_context` of `clear_history`. */
    method DeleteContext(chatId: UserId)
      modifies this
      ensures State() == DropContext(old(State()), chatId)
    {
      userContext := userContext - {chatId};
    }

    /** The `SELECT user_id FROM allowed_users` of the admin menu's user list. */
    method AllowedUsers() returns (users: set<UserId>)
      ensures users == State().allowed
    {
      users := allowedUsers;
    }
  }
}
