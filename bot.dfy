/**
 * The Discord side of the bridge: the bot's list of registered message commands,
 * the handler that runs when a command is invoked on a message, and shutdown.
 * Discord API calls are outcomes passed in; what the bot does is returned as a
 * trace (callback invocations, the follow-up content, session calls).
 */
module DiscordBot {
  import opened Wrappers
  import opened Text
  import opened GoTime
  import Snowflake

  /** `InteractionCallback`: (file name, URL, message time) to (status text, error). */
  type Callback = (string, string, Time) -> (string, Option<Error>)

  /** A registered message command: Discord's command id, its name, who may run it, and what it does. */
  datatype Interaction = Interaction(id: string, name: string, authorizedUserIDs: seq<string>, callback: Callback)

  datatype User = User(id: string, username: string)
  datatype Member = Member(user: Option<User>)
  datatype Attachment = Attachment(filename: string, url: string, contentType: string)
  datatype Message = Message(id: string, attachments: seq<Attachment>)

  /**
   * The parts of an `InteractionCreate` event the handler reads: the command name,
   * the invoking user (direct or as a guild member), the target message id and the
   * messages Discord resolved for it.
   */
  datatype InteractionCreate = InteractionCreate(
    commandName: string,
    user: Option<User>,
    member: Option<Member>,
    targetID: string,
    resolvedMessages: map<string, Message>)

  /** One call of a callback, with its arguments. */
  datatype Invocation = Invocation(filename: string, url: string, messageTime: Time)

  /** Session calls made by Shutdown. */
  datatype SessionCall = CommandDelete(id: string) | SessionClose

  const NoAttachments: string := "no attachments detected"

  predicate Matches(i: Interaction, ev: InteractionCreate) {
    ev.commandName == i.name
  }

  predicate HasCaller(ev: InteractionCreate) {
    ev.user.Some? || (ev.member.Some? && ev.member.value.user.Some?)
  }

  /** The invoking user: `interaction.User` when set, else `interaction.Member.User`. */
  function Caller(ev: InteractionCreate): User
    requires HasCaller(ev)
  {
    if ev.user.Some? then ev.user.value else ev.member.value.user.value
  }

  predicate Authorized(i: Interaction, ev: InteractionCreate)
    requires HasCaller(ev)
  {
    Caller(ev).id in i.authorizedUserIDs
  }

  /** No interaction of the list has the invoked command's name. */
  predicate NoMatch(ints: seq<Interaction>, ev: InteractionCreate) {
    forall k :: 0 <= k < |ints| ==> !Matches(ints[k], ev)
  }

  /**
   * What the handler needs in order not to dereference nil: at the first matching
   * interaction the caller resolves, and if that interaction authorizes the caller,
   * the target message resolves. A first match that refuses the caller ends the
   * handler before the message is read.
   */
  predicate Resolvable(ints: seq<Interaction>, ev: InteractionCreate) {
    forall k :: 0 <= k < |ints| && Matches(ints[k], ev) && NoMatch(ints[..k], ev) ==>
      HasCaller(ev) && (Authorized(ints[k], ev) ==> ev.targetID in ev.resolvedMessages)
  }

  /** Content types the bot backs up: `image/...` and `video/...` (case-sensitive). */
  predicate IsMedia(a: Attachment) {
    HasPrefix(a.contentType, "image/") || HasPrefix(a.contentType, "video/")
  }

  /** The callback calls for a message's attachments: one per media attachment, in attachment order. */
  function MediaInvocations(atts: seq<Attachment>, t: Time): seq<Invocation>
    decreases |atts|
  {
    if atts == [] then []
    else
      var a := atts[|atts| - 1];
      MediaInvocations(atts[..|atts| - 1], t) + (if IsMedia(a) then [Invocation(a.filename, a.url, t)] else [])
  }

  /** The concatenated status texts that `cb` returns for `calls`, errors or not. */
  function Statuses(cb: Callback, calls: seq<Invocation>): string
    decreases |calls|
  {
    if calls == [] then ""
    else
      var c := calls[|calls| - 1];
      Statuses(cb, calls[..|calls| - 1]) + cb(c.filename, c.url, c.messageTime).0
  }

  /** The time of the target message, or the zero time when its id does not parse. */
  function MessageTime(m: Message): Time {
    Snowflake.ParseSnowflakeToTime(m.id).0
  }

  /** The handler's state after some interactions: calls made, status text, and whether it gave up. */
  datatype Progress = Progress(calls: seq<Invocation>, statuses: string, denied: bool)

  /**
   * What the handler does over the interaction list, in list order: a matching
   * interaction with an unauthorized caller stops everything; an authorized one
   * runs the callback on each media attachment and appends the statuses, or sets
   * the status text to the "no attachments" literal when the message has none.
   */
  function Handle(ints: seq<Interaction>, ev: InteractionCreate): (p: Progress)
    requires Resolvable(ints, ev)
    ensures !NoMatch(ints, ev) ==> HasCaller(ev)
    ensures !NoMatch(ints, ev) && !p.denied ==> ev.targetID in ev.resolvedMessages
    decreases |ints|
  {
    if ints == [] then Progress([], "", false)
    else
      var init := ints[..|ints| - 1];
      assert forall k :: 0 <= k < |init| ==> init[k] == ints[k] && init[..k] == ints[..k];
      var p := Handle(init, ev);
      var i := ints[|ints| - 1];
      assert NoMatch(init, ev) && Matches(i, ev) ==>
               HasCaller(ev) && (Authorized(i, ev) ==> ev.targetID in ev.resolvedMessages);
      if p.denied || !Matches(i, ev) then p
      else if !Authorized(i, ev) then p.(denied := true)
      else
        var m := ev.resolvedMessages[ev.targetID];
        var t := MessageTime(m);
        if |m.attachments| > 0 then
          var calls := MediaInvocations(m.attachments, t);
          Progress(p.calls + calls, p.statuses + Statuses(i.callback, calls), false)
        else
          Progress(p.calls, NoAttachments, false)
  }

  lemma ResolvablePrefix(ints: seq<Interaction>, ev: InteractionCreate, k: nat)
    requires k <= |ints| && Resolvable(ints, ev)
    ensures Resolvable(ints[..k], ev)
  {
    assert forall j :: 0 <= j < k ==> ints[..k][j] == ints[j] && ints[..k][..j] == ints[..j];
  }

  /** Once the handler has given up, later interactions change nothing. */
  lemma {:induction false} DeniedIsFinal(ints: seq<Interaction>, ev: InteractionCreate, k: nat)
    requires k <= |ints| && Resolvable(ints, ev)
    requires (ResolvablePrefix(ints, ev, k); Handle(ints[..k], ev).denied)
    ensures Handle(ints, ev) == Handle(ints[..k], ev)
    decreases |ints|
  {
    ResolvablePrefix(ints, ev, k);
    if k < |ints| {
      var init := ints[..|ints| - 1];
      ResolvablePrefix(ints, ev, |ints| - 1);
      assert init[..k] == ints[..k];
      DeniedIsFinal(init, ev, k);
    } else {
      assert ints[..k] == ints;
    }
  }

  /** With no interaction of that name, nothing runs and the follow-up is empty. */
  lemma {:induction false} HandleNoMatch(ints: seq<Interaction>, ev: InteractionCreate)
    requires forall k :: 0 <= k < |ints| ==> !Matches(ints[k], ev)
    ensures Handle(ints, ev) == Progress([], "", false)
    decreases |ints|
  {
    if ints != [] {
      HandleNoMatch(ints[..|ints| - 1], ev);
    }
  }

  /**
   * A first matching interaction that refuses the caller ends the handler before the
   * target message is read, so the message need not resolve and a later matching
   * interaction that would accept the caller never runs.
   */
  lemma RefusalBeforeMessage(refusing: Interaction, accepting: Interaction, ev: InteractionCreate)
    requires Matches(refusing, ev) && Matches(accepting, ev) && HasCaller(ev)
    requires !Authorized(refusing, ev) && Authorized(accepting, ev)
    ensures Resolvable([refusing, accepting], ev)
    ensures Handle([refusing, accepting], ev) == Progress([], "", true)
  {
    var ints := [refusing, accepting];
    assert ints[..0] == [] && ints[..1] == [refusing];
    assert !NoMatch(ints[..1], ev) by {
      assert Matches(ints[..1][0], ev);
    }
    assert [refusing][..0] == [];
    assert Handle([refusing], ev).denied;
  }

  /** Filtering distributes over concatenation, so it keeps attachment order. */
  lemma {:induction false} MediaInvocationsAppend(xs: seq<Attachment>, ys: seq<Attachment>, t: Time)
    ensures MediaInvocations(xs + ys, t) == MediaInvocations(xs, t) + MediaInvocations(ys, t)
    decreases |ys|
  {
    if ys != [] {
      var ys' := ys[..|ys| - 1];
      assert (xs + ys)[..|xs + ys| - 1] == xs + ys';
      MediaInvocationsAppend(xs, ys', t);
    } else {
      assert xs + ys == xs;
    }
  }

  /** A single attachment gives one call exactly when it is an image or a video. */
  lemma MediaInvocationsSingle(a: Attachment, t: Time)
    ensures MediaInvocations([a], t) == if IsMedia(a) then [Invocation(a.filename, a.url, t)] else []
  {
    assert [a][..0] == [];
  }

  /** Statuses are concatenated in call order. */
  lemma {:induction false} StatusesAppend(cb: Callback, xs: seq<Invocation>, ys: seq<Invocation>)
    ensures Statuses(cb, xs + ys) == Statuses(cb, xs) + Statuses(cb, ys)
    decreases |ys|
  {
    if ys != [] {
      var ys' := ys[..|ys| - 1];
      assert (xs + ys)[..|xs + ys| - 1] == xs + ys';
      StatusesAppend(cb, xs, ys');
    } else {
      assert xs + ys == xs;
    }
  }

  /**
   * The bot registers one interaction. For it, an unauthorized caller gets nothing;
   * an authorized caller's message with attachments gets one callback per media
   * attachment and their statuses; a message without attachments gets the literal
   * and no callback.
   */
  lemma HandleSingle(i: Interaction, ev: InteractionCreate)
    requires Matches(i, ev) && HasCaller(ev) && ev.targetID in ev.resolvedMessages
    ensures var p := Handle([i], ev);
            var m := ev.resolvedMessages[ev.targetID];
            var calls := MediaInvocations(m.attachments, MessageTime(m));
            && (p.denied <==> !Authorized(i, ev))
            && (!Authorized(i, ev) ==> p.calls == [])
            && (Authorized(i, ev) && |m.attachments| > 0 ==>
                  p.calls == calls && p.statuses == Statuses(i.callback, calls))
            && (Authorized(i, ev) && |m.attachments| == 0 ==>
                  p.calls == [] && p.statuses == NoAttachments)
  {
    assert [i][..0] == [];
  }

  /** `[image/png, text/plain, video/mp4]` gives calls for the first and the third, in that order. */
  lemma FilterExample(t: Time)
    ensures var a1 := Attachment("a.png", "u1", "image/png");
            var a2 := Attachment("b.txt", "u2", "text/plain");
            var a3 := Attachment("c.mp4", "u3", "video/mp4");
            MediaInvocations([a1, a2, a3], t) == [Invocation("a.png", "u1", t), Invocation("c.mp4", "u3", t)]
  {
    var a1 := Attachment("a.png", "u1", "image/png");
    var a2 := Attachment("b.txt", "u2", "text/plain");
    var a3 := Attachment("c.mp4", "u3", "video/mp4");
    assert a2.contentType[..6] != "image/" && a2.contentType[..6] != "video/" by {
      assert a2.contentType[0] == 't';
    }
    assert IsMedia(a1) && !IsMedia(a2) && IsMedia(a3);
    MediaInvocationsAppend([a1, a2], [a3], t);
    MediaInvocationsAppend([a1], [a2], t);
    MediaInvocationsSingle(a1, t);
    MediaInvocationsSingle(a2, t);
    MediaInvocationsSingle(a3, t);
    assert [a1, a2, a3] == [a1, a2] + [a3];
    assert [a1, a2] == [a1] + [a2];
  }

  /** One step of the handler over the interaction list, unfolded. */
  lemma HandleStep(ints: seq<Interaction>, ev: InteractionCreate, k: nat)
    requires k < |ints| && Resolvable(ints, ev)
    ensures Resolvable(ints[..k], ev) && Resolvable(ints[..k + 1], ev)
    ensures Matches(ints[k], ev) ==> HasCaller(ev)
    ensures Matches(ints[k], ev) && !Handle(ints[..k], ev).denied && Authorized(ints[k], ev) ==>
              ev.targetID in ev.resolvedMessages
    ensures var p := Handle(ints[..k], ev);
            var i := ints[k];
            Handle(ints[..k + 1], ev) ==
              if p.denied || !Matches(i, ev) then p
              else if !Authorized(i, ev) then p.(denied := true)
              else
                var m := ev.resolvedMessages[ev.targetID];
                var t := MessageTime(m);
                if |m.attachments| > 0 then
                  var calls := MediaInvocations(m.attachments, t);
                  Progress(p.calls + calls, p.statuses + Statuses(i.callback, calls), false)
                else
                  Progress(p.calls, NoAttachments, false)
  {
    ResolvablePrefix(ints, ev, k);
    ResolvablePrefix(ints, ev, k + 1);
    assert ints[..k + 1][..k] == ints[..k];
    assert ints[..k + 1][k] == ints[k];
    if Matches(ints[k], ev) {
      assert !NoMatch(ints[..k + 1], ev) by {
        assert Matches(ints[..k + 1][k], ev);
      }
      var p := Handle(ints[..k + 1], ev);
    }
  }

  /**
   * The attachment loop of one authorized interaction: the callback runs on each
   * media attachment in order and every returned status is appended, whether or
   * not the callback reported an error.
   */
  method RunCallback(cb: Callback, atts: seq<Attachment>, messageTime: Time)
    returns (calls: seq<Invocation>, statuses: string)
    ensures calls == MediaInvocations(atts, messageTime)
    ensures statuses == Statuses(cb, calls)
  {
    calls, statuses := [], "";
    for j := 0 to |atts|
      invariant calls == MediaInvocations(atts[..j], messageTime)
      invariant statuses == Statuses(cb, calls)
    {
      var a := atts[j];
      assert atts[..j + 1][..j] == atts[..j];
      if HasPrefix(a.contentType, "image/") || HasPrefix(a.contentType, "video/") {
        var (status, _) := cb(a.filename, a.url, messageTime);
        StatusesAppend(cb, calls, [Invocation(a.filename, a.url, messageTime)]);
        calls := calls + [Invocation(a.filename, a.url, messageTime)];
        statuses := statuses + status;
      }
    }
    assert atts[..|atts|] == atts;
  }

  class Bot {
    const appID: string
    var interactions: seq<Interaction>
    /** How many times the interaction handler has been registered with the session. */
    var handlers: nat

    constructor (appID: string)
      ensures this.appID == appID && interactions == [] && handlers == 0
    {
      this.appID := appID;
      interactions := [];
      handlers := 0;
    }

    /**
     * `AddInteraction`: registers the handler (even if what follows fails), then
     * creates the command; only a created command is appended to the list.
     */
    method AddInteraction(name: string, authorizedUserIDs: seq<string>, callback: Callback,
                          created: Result<string, Error>)
      returns (err: Option<Error>)
      modifies this
      ensures handlers == old(handlers) + 1
      ensures created.Success? ==>
                err.None? &&
                interactions == old(interactions) + [Interaction(created.value, name, authorizedUserIDs, callback)]
      ensures created.Failure? ==> err == Some(created.error) && interactions == old(interactions)
    {
      handlers := handlers + 1;
      if created.Failure? {
        return Some(created.error);
      }
      interactions := interactions + [Interaction(created.value, name, authorizedUserIDs, callback)];
      err := None;
    }

    /**
     * `botInteraction`: acknowledge, then run every matching interaction, then send
     * one follow-up with the collected statuses. A failed acknowledgement ends it
     * before anything else; an unauthorized caller ends it without a follow-up.
     */
    method BotInteraction(ev: InteractionCreate, ackError: Option<Error>)
      returns (calls: seq<Invocation>, followup: Option<string>)
      requires Resolvable(interactions, ev)
      ensures ackError.Some? ==> calls == [] && followup.None?
      ensures ackError.None? ==> calls == Handle(interactions, ev).calls
      ensures ackError.None? ==> (followup.Some? <==> !Handle(interactions, ev).denied)
      ensures followup.Some? ==> followup.value == Handle(interactions, ev).statuses
    {
      if ackError.Some? {
        return [], None;
      }
      var statuses := "";
      calls := [];
      for k := 0 to |interactions|
        invariant Resolvable(interactions[..k], ev)
        invariant Handle(interactions[..k], ev) == Progress(calls, statuses, false)
      {
        HandleStep(interactions, ev, k);
        var i := interactions[k];
        if ev.commandName == i.name {
          var user := Caller(ev);
          if user.id !in i.authorizedUserIDs {
            DeniedIsFinal(interactions, ev, k + 1);
            return calls, None;
          }
          var message := ev.resolvedMessages[ev.targetID];
          var messageTime := Snowflake.ParseSnowflakeToTime(message.id).0;
          if |message.attachments| > 0 {
            var newCalls, newStatuses := RunCallback(i.callback, message.attachments, messageTime);
            calls := calls + newCalls;
            statuses := statuses + newStatuses;
          } else {
            statuses := NoAttachments;
          }
        }
      }
      assert interactions[..|interactions|] == interactions;
      followup := Some(statuses);
    }

    function CommandIds(): (ids: seq<string>)
      reads this
      ensures |ids| == |interactions|
      ensures forall k :: 0 <= k < |ids| ==> ids[k] == interactions[k].id
    {
      seq(|interactions|, k requires 0 <= k < |interactions| reads this => interactions[k].id)
    }

    /**
     * `Shutdown`: delete the commands in list order and stop at the first failure,
     * returning its error; the session is closed on every path. The interaction
     * list itself is not changed.
     */
    method Shutdown(deleteCommand: string -> Option<Error>) returns (err: Option<Error>, calls: seq<SessionCall>)
      ensures var ids := CommandIds();
              var k := FirstFailedDelete(ids, deleteCommand);
              && calls == Deletes(ids[..if k < |ids| then k + 1 else k]) + [SessionClose]
              && err == (if k < |ids| then deleteCommand(ids[k]) else None)
    {
      ghost var ids := CommandIds();
      calls := [];
      for k := 0 to |interactions|
        invariant calls == Deletes(ids[..k])
        invariant forall j :: 0 <= j < k ==> deleteCommand(ids[j]).None?
      {
        var id := interactions[k].id;
        var e := deleteCommand(id);
        assert ids[..k + 1] == ids[..k] + [id];
        calls := calls + [CommandDelete(id)];
        if e.Some? {
          FirstFailedDeleteIs(ids, deleteCommand, k);
          return e, calls + [SessionClose];
        }
      }
      FirstFailedDeleteIs(ids, deleteCommand, |ids|);
      assert ids[..|ids|] == ids;
      err := None;
      calls := calls + [SessionClose];
    }
  }

  /** The delete calls for a list of command ids, in order. */
  function Deletes(ids: seq<string>): seq<SessionCall> {
    seq(|ids|, k requires 0 <= k < |ids| => CommandDelete(ids[k]))
  }

  /** The index of the first command whose deletion fails, or `|ids|` if none does. */
  function FirstFailedDelete(ids: seq<string>, deleteCommand: string -> Option<Error>): (k: nat)
    ensures k <= |ids|
    ensures forall j :: 0 <= j < k ==> deleteCommand(ids[j]).None?
    ensures k < |ids| ==> deleteCommand(ids[k]).Some?
    decreases |ids|
  {
    if ids == [] then 0
    else if deleteCommand(ids[0]).Some? then 0
    else 1 + FirstFailedDelete(ids[1..], deleteCommand)
  }

  lemma FirstFailedDeleteIs(ids: seq<string>, deleteCommand: string -> Option<Error>, k: nat)
    requires k <= |ids|
    requires forall j :: 0 <= j < k ==> deleteCommand(ids[j]).None?
    requires k < |ids| ==> deleteCommand(ids[k]).Some?
    ensures FirstFailedDelete(ids, deleteCommand) == k
  {
  }
}
