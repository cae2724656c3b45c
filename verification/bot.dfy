/**
 * The bot's handlers: the commands `/start`, `/clearhistory`,
 * `/request_access`, `/add_user`, `/generate_invite` and `/admin`, the admin
 * menu's buttons, and plain text messages, which are relayed to the language
 * model together with the chat's stored conversation.
 *
 * Each handler is a step function from the store's content to the reply and
 * the new content (`...Step`), and a method that performs it on a `Database`
 * in the order the handler issues its queries and is proved to agree with
 * the step.
 */
module Bot {
  import opened Wrappers
  import opened Store
  import Text
  import Invites
  import Chunking
  import Sequences

  /** `ADMIN_IDS` and the bot's own `username`, fixed for a run. */
  datatype Config = Config(admins: set<UserId>, username: string)

  /** `update.message.chat.type`. */
  datatype ChatType = Private | Group | Supergroup | Channel

  /** What the language-model call gives back: a response with an `output`, one without, or an exception. */
  datatype LlmResult = Output(text: string) | NoOutput | CallFailed

  /** The language model, as the answer it gives to a prompt and the conversation sent with it. */
  type Llm = (string, seq<Turn>) -> LlmResult

  /**
   * One incoming update, with the id the handler reads (`message.chat_id`,
   * or `from_user.id` for a button). The random picks of the invite-code
   * generator and the language model come with the update that uses them.
   */
  datatype Update =
    | StartCommand(chatId: UserId)
    | ClearHistoryCommand(chatId: UserId)
    | RequestAccessCommand(chatId: UserId, args: seq<string>)
    | AddUserCommand(chatId: UserId, args: seq<string>)
    | GenerateInviteCommand(chatId: UserId, draw: nat -> nat)
    | AdminCommand(chatId: UserId)
    | ButtonPress(fromUser: UserId, data: string, draw: nat -> nat)
    | TextMessage(chatId: UserId, chatType: ChatType, text: string, llm: Llm)

  /** What the bot sends back (or edits the menu message into); `NoReply` when it sends nothing. */
  datatype Reply =
    | Greeting
    | NoAccess
    | NoAccessShort
    | HistoryCleared
    | MissingInviteCode
    | AccessGranted
    | InvalidInviteCode
    | NotAdmin
    | MissingUserId
    | UserAdded(id: UserId)
    | InviteCreated(code: string)
    | AdminMenuShown
    | UserList(users: set<UserId>)
    | NoUsers
    | MenuClosed
    | Answer(chunks: seq<string>)
    | ApiUnavailable
    | RequestFailed
    | NoReply

  /** The reply to an update and the store's content after it. */
  datatype Outcome = Outcome(reply: Reply, db: Db)

  /** `/start`: a greeting for an allowed chat, a refusal otherwise. */
  function StartStep(db: Db, chatId: UserId): (reply: Reply)
    ensures reply == Greeting <==> chatId in db.allowed
    ensures reply == NoAccess <==> chatId !in db.allowed
  {
    if chatId in db.allowed then Greeting else NoAccess
  }

  /** `/clearhistory`: an allowed chat's stored conversation is deleted, and no other. */
  function ClearHistoryStep(db: Db, chatId: UserId): (r: Outcome)
    ensures chatId !in db.allowed ==> r == Outcome(NoAccessShort, db)
    ensures chatId in db.allowed ==> r.reply == HistoryCleared && LoadContext(r.db, chatId) == []
    ensures forall other | other != chatId :: LoadContext(r.db, other) == LoadContext(db, other)
    ensures r.db.allowed == db.allowed && r.db.invites == db.invites
  {
    if chatId !in db.allowed then Outcome(NoAccessShort, db)
    else Outcome(HistoryCleared, DropContext(db, chatId))
  }

  /**
   * `/request_access CODE`: access is granted exactly when the code exists
   * and is unused, and the code is then used up. Whether the chat was already
   * allowed plays no part.
   */
  function RequestAccessStep(db: Db, chatId: UserId, args: seq<string>): (r: Outcome)
    ensures args == [] ==> r == Outcome(MissingInviteCode, db)
    ensures args != [] ==> (r.reply == AccessGranted <==> Redeemable(db, args[0]))
    ensures args != [] && !Redeemable(db, args[0]) ==> r == Outcome(InvalidInviteCode, db)
    ensures r.reply == AccessGranted ==> r.db.allowed == db.allowed + {chatId} && !Redeemable(r.db, args[0])
    ensures r.reply == AccessGranted ==> r.db.invites == db.invites[args[0] := true]
    ensures r.db.invites.Keys == db.invites.Keys && r.db.contexts == db.contexts
  {
    if args == [] then Outcome(MissingInviteCode, db)
    else
      var code := args[0];
      if Redeemable(db, code) then Outcome(AccessGranted, Grant(UseCode(db, code), chatId))
      else Outcome(InvalidInviteCode, db)
  }

  /**
   * `/add_user ID`, for admins only: the id, read with `int`, is allowed.
   * An id `int` cannot read raises before anything is sent or stored.
   */
  function AddUserStep(cfg: Config, db: Db, chatId: UserId, args: seq<string>): (r: Outcome)
    ensures chatId !in cfg.admins ==> r == Outcome(NotAdmin, db)
    ensures chatId in cfg.admins && args == [] ==> r == Outcome(MissingUserId, db)
    ensures chatId in cfg.admins && args != [] && Text.ParseInt(args[0]).None? ==> r == Outcome(NoReply, db)
    ensures chatId in cfg.admins && args != [] && Text.ParseInt(args[0]).Some? ==>
      var id := Text.ParseInt(args[0]).value;
      r.reply == UserAdded(id) && r.db.allowed == db.allowed + {id}
    ensures r.db.invites == db.invites && r.db.contexts == db.contexts
  {
    if chatId !in cfg.admins then Outcome(NotAdmin, db)
    else if args == [] then Outcome(MissingUserId, db)
    else
      match Text.ParseInt(args[0])
      case None => Outcome(NoReply, db)
      case Some(id) => Outcome(UserAdded(id), Grant(db, id))
  }

  /**
   * A fresh invite code drawn and saved, as `/generate_invite` and the
   * menu's button do it. The code is reported even when it was already in
   * the table, in which case the table is left as it was.
   */
  function NewInvite(db: Db, draw: nat -> nat): (r: Outcome)
    ensures r.reply.InviteCreated?
    ensures r.reply.code == Invites.GenerateInviteCode(Invites.DefaultLength, draw)
    ensures r.reply.code in r.db.invites
    ensures r.reply.code !in db.invites ==> Redeemable(r.db, r.reply.code)
    ensures r.reply.code in db.invites ==> r.db == db
    ensures r.db.invites.Keys == db.invites.Keys + {r.reply.code}
    ensures forall c | c in db.invites :: r.db.invites[c] == db.invites[c]
    ensures r.db.allowed == db.allowed && r.db.contexts == db.contexts
  {
    var code := Invites.GenerateInviteCode(Invites.DefaultLength, draw);
    Outcome(InviteCreated(code), StoreInvite(db, code))
  }

  /** `/generate_invite`, for admins only. */
  function GenerateInviteStep(cfg: Config, db: Db, chatId: UserId, draw: nat -> nat): (r: Outcome)
    ensures chatId !in cfg.admins ==> r == Outcome(NotAdmin, db)
    ensures chatId in cfg.admins ==> r.reply.InviteCreated? && r.reply.code in r.db.invites
    ensures chatId in cfg.admins ==> |r.reply.code| == Invites.DefaultLength
    ensures chatId in cfg.admins ==> forall k | 0 <= k < |r.reply.code| :: Invites.IsAlphanumeric(r.reply.code[k])
    ensures chatId in cfg.admins ==> r == NewInvite(db, draw)
    ensures r.db.allowed == db.allowed && r.db.contexts == db.contexts
  {
    if chatId !in cfg.admins then Outcome(NotAdmin, db) else NewInvite(db, draw)
  }

  /** `/admin`: the menu for admins, a refusal for anyone else. */
  function AdminMenuStep(cfg: Config, chatId: UserId): (reply: Reply)
    ensures reply == AdminMenuShown <==> chatId in cfg.admins
    ensures reply == NotAdmin <==> chatId !in cfg.admins
  {
    if chatId in cfg.admins then AdminMenuShown else NotAdmin
  }

  /** The menu's buttons, for admins only; unknown callback data is ignored. */
  function ButtonStep(cfg: Config, db: Db, fromUser: UserId, data: string, draw: nat -> nat): (r: Outcome)
    ensures fromUser !in cfg.admins ==> r == Outcome(NotAdmin, db)
    ensures fromUser in cfg.admins && data == "generate_invite" ==> r == NewInvite(db, draw)
    ensures fromUser in cfg.admins && data == "view_users" ==>
      r.db == db && (r.reply == NoUsers <==> db.allowed == {}) && (r.reply != NoUsers ==> r.reply == UserList(db.allowed))
    ensures fromUser in cfg.admins && data == "close_menu" ==> r == Outcome(MenuClosed, db)
    ensures data != "generate_invite" ==> r.db == db
    ensures r.db.allowed == db.allowed && r.db.contexts == db.contexts
  {
    if fromUser !in cfg.admins then Outcome(NotAdmin, db)
    else if data == "generate_invite" then NewInvite(db, draw)
    else if data == "view_users" then
      if db.allowed == {} then Outcome(NoUsers, db) else Outcome(UserList(db.allowed), db)
    else if data == "close_menu" then Outcome(MenuClosed, db)
    else Outcome(NoReply, db)
  }

  /** The mention of the bot, `f"@{context.bot.username}"`. */
  function Mention(cfg: Config): (m: string)
    ensures |m| == |cfg.username| + 1 && m[0] == '@' && m[1..] == cfg.username
  {
    "@" + cfg.username
  }

  /** In a group or supergroup, only messages that mention the bot or start with "/" are answered. */
  predicate PassesGroupFilter(cfg: Config, chatType: ChatType, text: string) {
    (chatType == Group || chatType == Supergroup) ==> Text.Contains(text, Mention(cfg)) || Text.StartsWith(text, "/")
  }

  /** The prompt: the text with every mention of the bot removed, stripped, then with its backslashes removed. */
  function Prompt(cfg: Config, text: string): (prompt: string)
    ensures '\\' !in prompt
    ensures |prompt| <= |text|
  {
    Text.CleanMarkdown(Text.Strip(Text.RemoveAll(text, Mention(cfg))))
  }

  /** The conversation sent to the model: the stored one, then the new prompt as the user's turn. */
  function Request(cfg: Config, db: Db, chatId: UserId, text: string): (history: seq<Turn>)
    ensures |history| == |LoadContext(db, chatId)| + 1
    ensures history[..|history| - 1] == LoadContext(db, chatId)
    ensures history[|history| - 1] == Turn(User, Prompt(cfg, text))
  {
    LoadContext(db, chatId) + [Turn(User, Prompt(cfg, text))]
  }

  /** The model's answer as it is sent and stored: formatted as a list, then without backslashes. */
  function CleanAnswer(output: string): (clean: string)
    ensures '\\' !in clean
  {
    Text.CleanMarkdown(Text.FormatList(output))
  }

  /**
   * `handle_message`. A message that passes the group filter from an allowed
   * chat is sent to the model with the chat's conversation. When the model
   * answers, the cleaned answer is sent in chunks and the conversation is
   * stored with the user's turn and the answer appended; in every other
   * case nothing is stored.
   */
  function MessageStep(cfg: Config, db: Db, chatId: UserId, chatType: ChatType, text: string, llm: Llm): (r: Outcome)
    ensures !PassesGroupFilter(cfg, chatType, text) ==> r == Outcome(NoReply, db)
    ensures PassesGroupFilter(cfg, chatType, text) && chatId !in db.allowed ==> r == Outcome(NoAccess, db)
    ensures r.reply.Answer? <==>
      PassesGroupFilter(cfg, chatType, text) && chatId in db.allowed &&
      llm(Prompt(cfg, text), Request(cfg, db, chatId, text)).Output?
    ensures r.reply.Answer? ==>
      var answer := CleanAnswer(llm(Prompt(cfg, text), Request(cfg, db, chatId, text)).text);
      r.reply.chunks == Chunking.Chunks(answer, Chunking.MaxMessageLength) &&
      Chunking.Concat(r.reply.chunks) == answer &&
      (forall k | 0 <= k < |r.reply.chunks| :: 0 < |r.reply.chunks[k]| <= Chunking.MaxMessageLength) &&
      LoadContext(r.db, chatId) == LoadContext(db, chatId) + [Turn(User, Prompt(cfg, text)), Turn(Assistant, answer)]
    ensures (PassesGroupFilter(cfg, chatType, text) && chatId in db.allowed &&
             llm(Prompt(cfg, text), Request(cfg, db, chatId, text)).NoOutput?) ==> r == Outcome(ApiUnavailable, db)
    ensures (PassesGroupFilter(cfg, chatType, text) && chatId in db.allowed &&
             llm(Prompt(cfg, text), Request(cfg, db, chatId, text)).CallFailed?) ==> r == Outcome(RequestFailed, db)
    ensures !r.reply.Answer? ==> r.db == db
    ensures forall other | other != chatId :: LoadContext(r.db, other) == LoadContext(db, other)
    ensures r.db.allowed == db.allowed && r.db.invites == db.invites
  {
    if !PassesGroupFilter(cfg, chatType, text) then Outcome(NoReply, db)
    else if chatId !in db.allowed then Outcome(NoAccess, db)
    else
      var prompt := Prompt(cfg, text);
      var history := Request(cfg, db, chatId, text);
      match llm(prompt, history)
      case Output(output) =>
        var answer := CleanAnswer(output);
        Chunking.ChunksCover(answer, Chunking.MaxMessageLength);
        Sequences.AppendPair(LoadContext(db, chatId), Turn(User, prompt), Turn(Assistant, answer));
        Outcome(Answer(Chunking.Chunks(answer, Chunking.MaxMessageLength)),
                StoreContext(db, chatId, history + [Turn(Assistant, answer)]))
      case NoOutput => Outcome(ApiUnavailable, db)
      case CallFailed => Outcome(RequestFailed, db)
  }

  /**
   * The handler the application routes an update to. No update takes an
   * id off the allow-list, turns a used code back to unused or removes a code.
   */
  function Step(cfg: Config, db: Db, u: Update): (r: Outcome)
    ensures db.allowed <= r.db.allowed
    ensures db.invites.Keys <= r.db.invites.Keys
    ensures forall c | c in db.invites && db.invites[c] :: r.db.invites[c]
  {
    match u
    case StartCommand(chatId) => Outcome(StartStep(db, chatId), db)
    case ClearHistoryCommand(chatId) => ClearHistoryStep(db, chatId)
    case RequestAccessCommand(chatId, args) => RequestAccessStep(db, chatId, args)
    case AddUserCommand(chatId, args) => AddUserStep(cfg, db, chatId, args)
    case GenerateInviteCommand(chatId, draw) => GenerateInviteStep(cfg, db, chatId, draw)
    case AdminCommand(chatId) => Outcome(AdminMenuStep(cfg, chatId), db)
    case ButtonPress(fromUser, data, draw) => ButtonStep(cfg, db, fromUser, data, draw)
    case TextMessage(chatId, chatType, text, llm) => MessageStep(cfg, db, chatId, chatType, text, llm)
  }

  /** The store's content after a run of updates, handled one after another. */
  function Run(cfg: Config, db: Db, updates: seq<Update>): Db
    decreases |updates|
  {
    if updates == [] then db else Run(cfg, Step(cfg, db, updates[0]).db, updates[1..])
  }

  /** The replies to a run of updates, in order. */
  function Replies(cfg: Config, db: Db, updates: seq<Update>): seq<Reply>
    decreases |updates|
  {
    if updates == [] then []
    else
      var first := Step(cfg, db, updates[0]);
      [first.reply] + Replies(cfg, first.db, updates[1..])
  }

  // The handlers as they run against the store.

  /** `start`. */
  method Start(db: Database, chatId: UserId) returns (reply: Reply)
    ensures reply == StartStep(db.State(), chatId)
  {
    var allowed := db.IsUserAllowed(chatId);
    if !allowed {
      return NoAccess;
    }
    reply := Greeting;
  }

  /** `clear_history`. */
  method ClearHistory(db: Database, chatId: UserId) returns (reply: Reply)
    modifies db
    ensures Outcome(reply, db.State()) == ClearHistoryStep(old(db.State()), chatId)
  {
    var allowed := db.IsUserAllowed(chatId);
    if !allowed {
      return NoAccessShort;
    }
    db.DeleteContext(chatId);
    reply := HistoryCleared;
  }

  /** `request_access`. */
  method RequestAccess(db: Database, chatId: UserId, args: seq<string>) returns (reply: Reply)
    modifies db
    ensures Outcome(reply, db.State()) == RequestAccessStep(old(db.State()), chatId, args)
  {
    if args == [] {
      return MissingInviteCode;
    }
    var inviteCode := args[0];
    var valid := db.CheckInviteCode(inviteCode);
    if valid {
      db.AddUserToAllowedList(chatId);
      reply := AccessGranted;
    } else {
      reply := InvalidInviteCode;
    }
  }

  /** `add_user`. */
  method AddUser(cfg: Config, db: Database, chatId: UserId, args: seq<string>) returns (reply: Reply)
    modifies db
    ensures Outcome(reply, db.State()) == AddUserStep(cfg, old(db.State()), chatId, args)
  {
    if chatId !in cfg.admins {
      return NotAdmin;
    }
    if args == [] {
      return MissingUserId;
    }
    var parsed := Text.ParseInt(args[0]);
    if parsed.None? {
      return NoReply;
    }
    var userId := parsed.value;
    db.AddUserToAllowedList(userId);
    reply := UserAdded(userId);
  }

  /** `admin_menu`. */
  method AdminMenu(cfg: Config, chatId: UserId) returns (reply: Reply)
    ensures reply == AdminMenuStep(cfg, chatId)
  {
    if chatId !in cfg.admins {
      return NotAdmin;
    }
    reply := AdminMenuShown;
  }

  /** The code drawing and saving shared by `generate_invite` and the menu's button. */
  method CreateInvite(db: Database, draw: nat -> nat) returns (reply: Reply)
    modifies db
    ensures Outcome(reply, db.State()) == NewInvite(old(db.State()), draw)
  {
    var newCode := Invites.GenerateInviteCode(Invites.DefaultLength, draw);
    db.SaveInviteCode(newCode);
    reply := InviteCreated(newCode);
  }

  /** `generate_invite`. */
  method GenerateInvite(cfg: Config, db: Database, chatId: UserId, draw: nat -> nat) returns (reply: Reply)
    modifies db
    ensures Outcome(reply, db.State()) == GenerateInviteStep(cfg, old(db.State()), chatId, draw)
  {
    if chatId !in cfg.admins {
      return NotAdmin;
    }
    reply := CreateInvite(db, draw);
  }

  /** `button_handler`. */
  method ButtonHandler(cfg: Config, db: Database, fromUser: UserId, data: string, draw: nat -> nat) returns (reply: Reply)
    modifies db
    ensures Outcome(reply, db.State()) == ButtonStep(cfg, old(db.State()), fromUser, data, draw)
  {
    if fromUser !in cfg.admins {
      return NotAdmin;
    }
    if data == "generate_invite" {
      reply := CreateInvite(db, draw);
    } else if data == "view_users" {
      var users := db.AllowedUsers();
      if users != {} {
        reply := UserList(users);
      } else {
        reply := NoUsers;
      }
    } else if data == "close_menu" {
      reply := MenuClosed;
    } else {
      reply := NoReply;
    }
  }

  /** `handle_message`. */
  method HandleMessage(cfg: Config, db: Database, chatId: UserId, chatType: ChatType, text: string, llm: Llm)
    returns (reply: Reply)
    modifies db
    ensures Outcome(reply, db.State()) == MessageStep(cfg, old(db.State()), chatId, chatType, text, llm)
  {
    var mention := Mention(cfg);
    if chatType == Group || chatType == Supergroup {
      if !(Text.Contains(text, mention) || Text.StartsWith(text, "/")) {
        return NoReply;
      }
    }
    var allowed := db.IsUserAllowed(chatId);
    if !allowed {
      return NoAccess;
    }
    var userMessage := Text.Strip(Text.RemoveAll(text, mention));
    var contextData := db.GetContext(chatId);
    var userMessageEscaped := Text.CleanMarkdown(userMessage);
    contextData := contextData + [Turn(User, userMessageEscaped)];
    var response := llm(userMessageEscaped, contextData);
    match response {
      case Output(outputContent) =>
        var formattedOutput := Text.FormatListAsMarkdown(outputContent);
        var cleanOutput := Text.CleanMarkdown(formattedOutput);
        var chunks := Chunking.SendMessageInChunks(cleanOutput, Chunking.MaxMessageLength);
        contextData := contextData + [Turn(Assistant, cleanOutput)];
        db.SaveContext(chatId, contextData);
        reply := Answer(chunks);
      case NoOutput =>
        reply := ApiUnavailable;
      case CallFailed =>
        reply := RequestFailed;
    }
  }

  /** The routing of `main`: each update goes to the handler registered for it. */
  method Dispatch(cfg: Config, db: Database, u: Update) returns (reply: Reply)
    modifies db
    ensures Outcome(reply, db.State()) == Step(cfg, old(db.State()), u)
  {
    match u {
      case StartCommand(chatId) => reply := Start(db, chatId);
      case ClearHistoryCommand(chatId) => reply := ClearHistory(db, chatId);
      case RequestAccessCommand(chatId, args) => reply := RequestAccess(db, chatId, args);
      case AddUserCommand(chatId, args) => reply := AddUser(cfg, db, chatId, args);
      case GenerateInviteCommand(chatId, draw) => reply := GenerateInvite(cfg, db, chatId, draw);
      case AdminCommand(chatId) => reply := AdminMenu(cfg, chatId);
      case ButtonPress(fromUser, data, draw) => reply := ButtonHandler(cfg, db, fromUser, data, draw);
      case TextMessage(chatId, chatType, text, llm) => reply := HandleMessage(cfg, db, chatId, chatType, text, llm);
    }
  }

  /** `run_polling` over a finite run of updates: each is dispatched in turn. */
  method RunPolling(cfg: Config, db: Database, updates: seq<Update>) returns (replies: seq<Reply>)
    modifies db
    ensures db.State() == Run(cfg, old(db.State()), updates)
    ensures replies == Replies(cfg, old(db.State()), updates)
  {
    replies := [];
    var i := 0;
    while i < |updates|
      invariant i <= |updates|
      invariant Run(cfg, db.State(), updates[i..]) == Run(cfg, old(db.State()), updates)
      invariant replies + Replies(cfg, db.State(), updates[i..]) == Replies(cfg, old(db.State()), updates)
    {
      var reply := Dispatch(cfg, db, updates[i]);
      assert updates[i..][1..] == updates[i + 1..];
      Sequences.AppendAssoc(replies, [reply], Replies(cfg, db.State(), updates[i + 1..]));
      replies := replies + [reply];
      i := i + 1;
    }
  }
}
