/**
 * Properties of whole runs of the bot: what the access scheme and the
 * conversation store guarantee however updates are interleaved.
 */
module BotProperties {
  import opened Wrappers
  import opened Store
  import opened Bot
  import Text
  import Invites

  /** No run takes an id off the allow-list, removes a code, or turns a used code back to unused. */
  lemma {:induction false} RunOnlyAdds(cfg: Config, db: Db, updates: seq<Update>)
    ensures db.allowed <= Run(cfg, db, updates).allowed
    ensures db.invites.Keys <= Run(cfg, db, updates).invites.Keys
    ensures forall c | c in db.invites && db.invites[c] :: Run(cfg, db, updates).invites[c]
    decreases |updates|
  {
    if updates != [] {
      RunOnlyAdds(cfg, Step(cfg, db, updates[0]).db, updates[1..]);
    }
  }

  /**
   * An id joins the allow-list only by redeeming an unused invite code for
   * its own chat, or by an admin's `/add_user` naming it.
   */
  lemma AccessOnlyByInviteOrAdmin(cfg: Config, db: Db, u: Update, id: UserId)
    requires id !in db.allowed && id in Step(cfg, db, u).db.allowed
    ensures
      (u.RequestAccessCommand? && u.chatId == id && u.args != [] && Redeemable(db, u.args[0])) ||
      (u.AddUserCommand? && u.chatId in cfg.admins && u.args != [] && Text.ParseInt(u.args[0]) == Some(id))
  {
    match u
    case RequestAccessCommand(chatId, args) =>
      assert Step(cfg, db, u) == RequestAccessStep(db, chatId, args);
    case AddUserCommand(chatId, args) =>
      assert Step(cfg, db, u) == AddUserStep(cfg, db, chatId, args);
    case _ =>
  }

  /** Whether an update is a successful `/request_access` with the given code. */
  predicate RedeemsCode(cfg: Config, db: Db, u: Update, code: string) {
    u.RequestAccessCommand? && u.args != [] && u.args[0] == code && Step(cfg, db, u).reply == AccessGranted
  }

  /** How many updates of a run redeem the given code. */
  function Redemptions(cfg: Config, db: Db, updates: seq<Update>, code: string): nat
    decreases |updates|
  {
    if updates == [] then 0
    else
      var next := Step(cfg, db, updates[0]).db;
      (if RedeemsCode(cfg, db, updates[0], code) then 1 else 0) + Redemptions(cfg, next, updates[1..], code)
  }

  /** A code already used is never redeemed again. */
  lemma {:induction false} UsedCodeNeverRedeemed(cfg: Config, db: Db, updates: seq<Update>, code: string)
    requires code in db.invites && db.invites[code]
    ensures Redemptions(cfg, db, updates, code) == 0
    decreases |updates|
  {
    if updates != [] {
      var u := updates[0];
      if u.RequestAccessCommand? && u.args != [] && u.args[0] == code {
        assert Step(cfg, db, u) == RequestAccessStep(db, u.chatId, u.args);
      }
      UsedCodeNeverRedeemed(cfg, Step(cfg, db, u).db, updates[1..], code);
    }
  }

  /** Each invite code grants access at most once over any run, however often it is generated or requested. */
  lemma {:induction false} RedeemedAtMostOnce(cfg: Config, db: Db, updates: seq<Update>, code: string)
    ensures Redemptions(cfg, db, updates, code) <= 1
    decreases |updates|
  {
    if updates != [] {
      var u := updates[0];
      var next := Step(cfg, db, u).db;
      if RedeemsCode(cfg, db, u, code) {
        assert Step(cfg, db, u) == RequestAccessStep(db, u.chatId, u.args);
        UsedCodeNeverRedeemed(cfg, next, updates[1..], code);
      } else {
        RedeemedAtMostOnce(cfg, next, updates[1..], code);
      }
    }
  }

  /** Whether an update is a `/clearhistory` from the given chat. */
  predicate ClearsHistoryOf(u: Update, id: UserId) {
    u.ClearHistoryCommand? && u.chatId == id
  }

  /** Without a `/clearhistory` from the chat, a step only appends to the chat's conversation. */
  lemma StepKeepsHistory(cfg: Config, db: Db, u: Update, id: UserId)
    requires !ClearsHistoryOf(u, id)
    ensures LoadContext(db, id) <= LoadContext(Step(cfg, db, u).db, id)
  {
    match u
    case TextMessage(chatId, chatType, text, llm) =>
      var r := MessageStep(cfg, db, chatId, chatType, text, llm);
      assert Step(cfg, db, u) == r;
      if chatId == id && r.reply.Answer? {
        var stored := LoadContext(r.db, id);
        assert stored[..|LoadContext(db, id)|] == LoadContext(db, id);
      }
    case _ =>
  }

  /** Without a `/clearhistory` from the chat, a run never loses any of the chat's conversation. */
  lemma {:induction false} HistoryOnlyGrows(cfg: Config, db: Db, updates: seq<Update>, id: UserId)
    requires forall k | 0 <= k < |updates| :: !ClearsHistoryOf(updates[k], id)
    ensures LoadContext(db, id) <= LoadContext(Run(cfg, db, updates), id)
    decreases |updates|
  {
    if updates != [] {
      var next := Step(cfg, db, updates[0]).db;
      StepKeepsHistory(cfg, db, updates[0], id);
      assert forall k | 0 <= k < |updates[1..]| :: !ClearsHistoryOf(updates[1..][k], id) by {
        forall k | 0 <= k < |updates[1..]| ensures !ClearsHistoryOf(updates[1..][k], id) {
          assert updates[1..][k] == updates[k + 1];
        }
      }
      HistoryOnlyGrows(cfg, next, updates[1..], id);
    }
  }

  /** A stored conversation is a sequence of exchanges: a user turn, then the assistant's answer to it. */
  predicate Alternates(turns: seq<Turn>) {
    |turns| % 2 == 0 &&
    forall k | 0 <= k < |turns| :: turns[k].role == (if k % 2 == 0 then User else Assistant)
  }

  /** Every stored conversation is made of whole exchanges. */
  predicate Exchanges(db: Db) {
    forall id | id in db.contexts :: Alternates(db.contexts[id])
  }

  /** Appending one exchange to a conversation of whole exchanges keeps it so. */
  lemma AlternatesAppend(turns: seq<Turn>, prompt: string, answer: string)
    requires Alternates(turns)
    ensures Alternates(turns + [Turn(User, prompt), Turn(Assistant, answer)])
  {
    var longer := turns + [Turn(User, prompt), Turn(Assistant, answer)];
    assert longer[|turns|] == Turn(User, prompt);
    assert longer[|turns| + 1] == Turn(Assistant, answer);
    forall k | 0 <= k < |longer| ensures longer[k].role == (if k % 2 == 0 then User else Assistant) {
      if k < |turns| {
        assert longer[k] == turns[k];
      }
    }
  }

  /** A relayed message appends at most one whole exchange, to its own chat's conversation. */
  lemma MessageKeepsExchanges(cfg: Config, db: Db, chatId: UserId, chatType: ChatType, text: string, llm: Llm)
    requires Exchanges(db)
    ensures Exchanges(MessageStep(cfg, db, chatId, chatType, text, llm).db)
  {
    var o := MessageStep(cfg, db, chatId, chatType, text, llm);
    if o.reply.Answer? {
      var answer := CleanAnswer(llm(Prompt(cfg, text), Request(cfg, db, chatId, text)).text);
      assert Alternates(LoadContext(db, chatId));
      AlternatesAppend(LoadContext(db, chatId), Prompt(cfg, text), answer);
      forall id | id in o.db.contexts ensures Alternates(o.db.contexts[id]) {
        assert o.db.contexts[id] == LoadContext(o.db, id);
        if id != chatId {
          assert id in db.contexts;
        }
      }
    }
  }

  /** Every step keeps the conversations made of whole exchanges. */
  lemma StepKeepsExchanges(cfg: Config, db: Db, u: Update)
    requires Exchanges(db)
    ensures Exchanges(Step(cfg, db, u).db)
  {
    match u
    case TextMessage(chatId, chatType, text, llm) =>
      MessageKeepsExchanges(cfg, db, chatId, chatType, text, llm);
    case ClearHistoryCommand(chatId) =>
      var r := Step(cfg, db, u).db;
      forall id | id in r.contexts ensures Alternates(r.contexts[id]) {
        assert r.contexts[id] == LoadContext(r, id);
        assert id in db.contexts && r.contexts[id] == db.contexts[id];
      }
    case _ =>
      assert Step(cfg, db, u).db.contexts == db.contexts;
  }

  /** Every run from a store of whole exchanges leaves one. */
  lemma {:induction false} RunKeepsExchanges(cfg: Config, db: Db, updates: seq<Update>)
    requires Exchanges(db)
    ensures Exchanges(Run(cfg, db, updates))
    decreases |updates|
  {
    if updates != [] {
      StepKeepsExchanges(cfg, db, updates[0]);
      RunKeepsExchanges(cfg, Step(cfg, db, updates[0]).db, updates[1..]);
    }
  }

  /** Starting from the empty store, every conversation a run stores is made of whole exchanges. */
  lemma RunFromEmptyKeepsExchanges(cfg: Config, updates: seq<Update>)
    ensures Exchanges(Run(cfg, EmptyDb, updates))
  {
    assert Exchanges(EmptyDb);
    RunKeepsExchanges(cfg, EmptyDb, updates);
  }

  /**
   * The invite scheme end to end: an admin generates a code that is new to
   * the table, the first chat that requests access with it is let in, and a
   * second request with the same code is refused.
   */
  lemma InviteScenario(cfg: Config, db: Db, admin: UserId, draw: nat -> nat, first: UserId, second: UserId)
    requires admin in cfg.admins
    requires Invites.GenerateInviteCode(Invites.DefaultLength, draw) !in db.invites
    ensures
      var code := Invites.GenerateInviteCode(Invites.DefaultLength, draw);
      var updates := [GenerateInviteCommand(admin, draw), RequestAccessCommand(first, [code]), RequestAccessCommand(second, [code])];
      Replies(cfg, db, updates) == [InviteCreated(code), AccessGranted, InvalidInviteCode] &&
      Run(cfg, db, updates).allowed == db.allowed + {first}
  {
    var code := Invites.GenerateInviteCode(Invites.DefaultLength, draw);
    var updates := [GenerateInviteCommand(admin, draw), RequestAccessCommand(first, [code]), RequestAccessCommand(second, [code])];
    var o1 := Step(cfg, db, updates[0]);
    var o2 := Step(cfg, o1.db, updates[1]);
    var o3 := Step(cfg, o2.db, updates[2]);
    assert o1 == GenerateInviteStep(cfg, db, admin, draw);
    assert Redeemable(o1.db, code);
    assert o2 == RequestAccessStep(o1.db, first, [code]);
    assert o3 == RequestAccessStep(o2.db, second, [code]);
    assert updates[1..][1..] == updates[2..];
    assert updates[2..][1..] == [];
    assert Replies(cfg, o2.db, updates[2..]) == [o3.reply];
    assert Replies(cfg, o1.db, updates[1..]) == [o2.reply, o3.reply];
    assert Run(cfg, o2.db, updates[2..]) == o3.db;
  }

  /** A message that neither mentions the bot nor has a backslash reaches the model only stripped. */
  lemma PromptOfPlainText(cfg: Config, text: string)
    requires !Text.Contains(text, Mention(cfg)) && '\\' !in text
    ensures Prompt(cfg, text) == Text.Strip(text)
  {
    Text.RemoveAllAbsent(text, Mention(cfg));
    var stripped := Text.Strip(text);
    Text.StripSlice(text);
    assert forall c | c in stripped :: c in text;
    Text.CleanMarkdownKeeps(stripped);
  }

  /**
   * A group message addressed to the bot, "@username" followed by text that
   * does not mention it again, reaches the model as that text, stripped and
   * without backslashes: the leading mention is removed.
   */
  lemma PromptOfLeadingMention(cfg: Config, rest: string)
    requires !Text.Contains(rest, Mention(cfg))
    ensures Prompt(cfg, Mention(cfg) + rest) == Text.CleanMarkdown(Text.Strip(rest))
  {
    Text.RemoveLeading(Mention(cfg), rest);
    Text.RemoveAllAbsent(rest, Mention(cfg));
  }
}
