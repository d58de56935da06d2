/**
 * The message handlers of `raybot/handlers/default.py`: `process` (the dispatch of a
 * text message), `process_query`, `welcome` (`/start`) and `write_search_log`, over
 * the bot's session storage and search log.
 */
module Handlers {
  import opened Wrappers
  import opened Text
  import opened Search
  import opened Session
  import opened SearchLog
  import Predefined

  type UserId = int

  /**
   * An inbound text message: the sender and whether it is a bot, whether it replies to a
   * forwarded message, its text, its date (already formatted as YYYY-MM-DD) and the
   * arguments after a command (`message.get_args()`).
   */
  datatype Message = Message(sender: UserId, senderIsBot: bool, repliesToForward: bool,
                             text: string, date: string, args: string)

  /**
   * The collaborators defined in other modules of the bot, and its configuration:
   * `split_tokens`, `has_keyword`, `db.find_poi`, `db.get_poi_by_id` (`None` when the
   * lookup fails), `test_address`, `prune_users`, the roles of `get_user`, and the
   * configured predefined responses.
   */
  datatype Env = Env(
    splitTokens: string -> seq<string>,
    hasKeyword: (string, seq<string>) -> bool,
    findPoi: string -> seq<PoiId>,
    poiById: int -> Option<PoiId>,
    testAddress: seq<string> -> bool,
    pruneUsers: UserId -> seq<UserId>,
    rolesOf: UserId -> set<string>,
    responses: seq<Predefined.Response>)

  /** Which stage of `process` handled a message. */
  datatype Outcome =
    | Ignored
    | ReplyHandled
    | EmptyInput
    | PredefinedReply(reply: Predefined.Reply)
    | AddressFound
    | QueryAnswered(pois: seq<PoiId>, query: string)

  /** The outcome of `process`: bot senders, replies to forwards, empty input, then the three stages. */
  function Route(msg: Message, env: Env): Outcome {
    if msg.senderIsBot then Ignored
    else if msg.repliesToForward then ReplyHandled
    else if env.splitTokens(msg.text) == [] then EmptyInput
    else Stages(msg, env.splitTokens(msg.text), env)
  }

  /** The stages run on a message with tokens, in order: predefined response, address, fuzzy query. */
  function Stages(msg: Message, tokens: seq<string>, env: Env): Outcome {
    match Predefined.Select(env.responses, Predefined.InputOf(tokens, msg.text, env.rolesOf(msg.sender), env.hasKeyword))
    case Some(reply) => PredefinedReply(reply)
    case None =>
      if env.testAddress(tokens) then AddressFound
      else QueryAnswered(Relaxed(tokens, env.findPoi), StoredQuery(tokens, env.findPoi))
  }

  /** The tag `process` logs for an outcome that is logged. */
  function OutcomeTag(outcome: Outcome): Tag
    requires !outcome.Ignored? && !outcome.ReplyHandled?
  {
    match outcome
    case EmptyInput => EmptyTag
    case PredefinedReply(_) => PredefinedTag
    case AddressFound => AddressTag
    case QueryAnswered(pois, _) => QueryTag(pois)
  }

  /**
   * Each later stage runs only when every earlier one declined: a fuzzy search happens
   * exactly for a human, non-reply message with tokens that neither a predefined
   * response nor the address test takes.
   */
  lemma DispatchOrder(msg: Message, env: Env)
    ensures var tokens := env.splitTokens(msg.text);
            var sel := Predefined.Select(env.responses, Predefined.InputOf(tokens, msg.text, env.rolesOf(msg.sender), env.hasKeyword));
            && (Route(msg, env).Ignored? <==> msg.senderIsBot)
            && (Route(msg, env).ReplyHandled? <==> !msg.senderIsBot && msg.repliesToForward)
            && (Route(msg, env).EmptyInput? <==> !msg.senderIsBot && !msg.repliesToForward && tokens == [])
            && (Route(msg, env).PredefinedReply? <==> !msg.senderIsBot && !msg.repliesToForward && tokens != [] && sel.Some?)
            && (Route(msg, env).AddressFound? <==>
                  !msg.senderIsBot && !msg.repliesToForward && tokens != [] && sel.None? && env.testAddress(tokens))
            && (Route(msg, env).QueryAnswered? <==>
                  !msg.senderIsBot && !msg.repliesToForward && tokens != [] && sel.None? && !env.testAddress(tokens))
  {
  }

  /** The session storage after `state.storage.finish(user=u)` for every `u` in `ids`. */
  function FinishAll(sessions: map<UserId, Session>, ids: seq<UserId>): (m: map<UserId, Session>)
    ensures m.Keys == sessions.Keys + set u | u in ids
    ensures forall u :: u in ids ==> m[u] == Finished
    ensures forall u :: u in sessions && u !in ids ==> m[u] == sessions[u]
  {
    sessions + map u | u in ids :: Finished
  }

  lemma FinishAllStep(sessions: map<UserId, Session>, ids: seq<UserId>, i: nat)
    requires i < |ids|
    ensures FinishAll(sessions, ids[..i + 1]) == FinishAll(sessions, ids[..i])[ids[i] := Finished]
  {
    var a := FinishAll(sessions, ids[..i + 1]);
    var b := FinishAll(sessions, ids[..i])[ids[i] := Finished];
    assert ids[..i + 1] == ids[..i] + [ids[i]];
    assert a.Keys == b.Keys;
    forall u | u in a.Keys ensures a[u] == b[u] {
      if u in ids[..i + 1] {
        if u != ids[i] {
          assert u in ids[..i];
        }
      }
    }
  }

  /** The session `process_query` leaves for `user`: set for a non-empty result, untouched otherwise. */
  function AfterQuery(sessions: map<UserId, Session>, user: UserId, pois: seq<PoiId>, query: string): map<UserId, Session> {
    if pois == [] then sessions else sessions[user := QuerySession(pois, query)]
  }

  /** The session storage after `process` took the route `outcome`. */
  function AfterProcess(sessions: map<UserId, Session>, msg: Message, env: Env, outcome: Outcome): map<UserId, Session>
  {
    if outcome.Ignored? || outcome.ReplyHandled? then sessions
    else if outcome.EmptyInput? then FinishAll(sessions, env.pruneUsers(msg.sender))
    else AfterStages(FinishAll(sessions, env.pruneUsers(msg.sender)), msg.sender, outcome)
  }

  /** The session storage after the stages: the sender's session reset, then set by a query result. */
  function AfterStages(sessions: map<UserId, Session>, user: UserId, outcome: Outcome): map<UserId, Session>
  {
    match outcome
    case QueryAnswered(pois, query) => AfterQuery(sessions[user := Finished], user, pois, query)
    case _ => sessions[user := Finished]
  }

  /** The log and the warnings after one row was written, or failed to be written and was logged as a warning. */
  predicate Appended(log0: seq<LogRow>, warnings0: seq<LogRow>, log: seq<LogRow>, warnings: seq<LogRow>,
                     row: LogRow, written: bool) {
    && log == log0 + (if written then [row] else [])
    && warnings == warnings0 + (if written then [] else [row])
  }

  /**
   * How `welcome` reads the `/start` argument: nothing, a POI id when it parses as an
   * integer, search tokens otherwise.
   */
  datatype Payload = NoPayload | PoiPayload(id: int) | TokenPayload(tokens: seq<string>)

  function ParsePayload(args: string, splitTokens: string -> seq<string>): Payload {
    if args == "" then NoPayload
    else match ParseInt(args)
      case Some(n) => PoiPayload(n)
      case None => TokenPayload(splitTokens(args))
  }

  /** A deep link made from a POI id, `/start <id>`, is read back as that id. */
  lemma PayloadRoundTrip(id: PoiId, splitTokens: string -> seq<string>)
    ensures ParsePayload(IntToString(id), splitTokens) == PoiPayload(id)
  {
    ParseIntToString(id);
    IntToStringStart(id);
  }

  /** A payload is read as tokens exactly when it is non-empty and not an integer. */
  lemma PayloadTokensOnlyForNonIntegers(args: string, splitTokens: string -> seq<string>)
    ensures ParsePayload(args, splitTokens).TokenPayload? <==> args != "" && ParseInt(args).None?
    ensures ParsePayload(args, splitTokens).TokenPayload? ==> ParsePayload(args, splitTokens).tokens == splitTokens(args)
  {
  }

  /** What `welcome` did with the payload. */
  datatype StartOutcome =
    | Started
    | ShowPoi(id: PoiId)
    | PoiLookupFailed(requested: int)
    | NothingToSearch
    | StartSearch(tokens: seq<string>, pois: seq<PoiId>, query: string)

  function StartRoute(msg: Message, env: Env): StartOutcome {
    match ParsePayload(msg.args, env.splitTokens)
    case NoPayload => Started
    case PoiPayload(n) =>
      (match env.poiById(n)
       case Some(id) => ShowPoi(id)
       case None => PoiLookupFailed(n))
    case TokenPayload(tokens) =>
      if tokens == [] then NothingToSearch
      else StartSearch(tokens, Relaxed(tokens, env.findPoi), StoredQuery(tokens, env.findPoi))
  }

  function AfterStart(sessions: map<UserId, Session>, user: UserId, outcome: StartOutcome): map<UserId, Session> {
    match outcome
    case ShowPoi(id) => sessions[user := Session(PoiShown, OnePoi(id))]
    case StartSearch(_, pois, query) => AfterQuery(sessions[user := Finished], user, pois, query)
    case _ => sessions[user := Finished]
  }

  /**
   * The bot's mutable state: the per-user session storage the finite-state machine
   * keeps, the rows of `search.log`, and the rows logged as warnings because writing
   * them failed.
   */
  class Bot {
    var sessions: map<UserId, Session>
    var log: seq<LogRow>
    var warnings: seq<LogRow>

    /** Every stored session is well formed. */
    ghost predicate Valid()
      reads this
    {
      forall u :: u in sessions ==> WellFormed(sessions[u])
    }

    constructor ()
      ensures Valid() && sessions == map[] && log == [] && warnings == []
    {
      sessions := map[];
      log := [];
      warnings := [];
    }

    /** `write_search_log`; `written` is whether appending to the file succeeded. */
    method WriteSearchLog(msg: Message, tokens: seq<string>, tag: Tag, written: bool)
      modifies this
      ensures sessions == old(sessions)
      ensures Appended(old(log), old(warnings), log, warnings, SearchRow(msg.date, msg.text, tokens, tag), written)
    {
      var row := SearchRow(msg.date, msg.text, tokens, tag);
      if written {
        log := log + [row];
      } else {
        warnings := warnings + [row];
      }
    }

    /** `state.storage.finish(user=u)` for each `u` that `prune_users` returned. */
    method FinishUsers(ids: seq<UserId>)
      requires Valid()
      modifies this
      ensures Valid()
      ensures sessions == FinishAll(old(sessions), ids)
      ensures log == old(log) && warnings == old(warnings)
    {
      for i := 0 to |ids|
        invariant Valid()
        invariant sessions == FinishAll(old(sessions), ids[..i])
        invariant log == old(log) && warnings == old(warnings)
      {
        FinishAllStep(old(sessions), ids, i);
        sessions := sessions[ids[i] := Finished];
      }
      assert ids[..|ids|] == ids;
    }

    /** `process_query`: the relaxation search, then the session and the log row for its result. */
    method ProcessQuery(msg: Message, tokens: seq<string>, find: string -> seq<PoiId>, written: bool)
      returns (pois: seq<PoiId>, query: string)
      requires Valid()
      modifies this
      ensures Valid()
      ensures pois == Relaxed(tokens, find) && query == StoredQuery(tokens, find)
      ensures sessions == AfterQuery(old(sessions), msg.sender, pois, query)
      ensures Appended(old(log), old(warnings), log, warnings, SearchRow(msg.date, msg.text, tokens, QueryTag(pois)), written)
    {
      pois, query := Resolve(tokens, find);
      if |pois| == 1 {
        WriteSearchLog(msg, tokens, PoiTag(pois[0]), written);
        sessions := sessions[msg.sender := Session(PoiShown, OnePoi(pois[0]))];
      } else if |pois| > 1 {
        WriteSearchLog(msg, tokens, ResultsTag(|pois|), written);
        sessions := sessions[msg.sender := Session(PoiListShown, PoiList(query, pois))];
      } else {
        WriteSearchLog(msg, tokens, NotFoundTag, written);
      }
    }

    /** `process`: the handler for every text message. */
    method Process(msg: Message, env: Env, written: bool) returns (outcome: Outcome)
      requires Valid()
      modifies this
      ensures Valid()
      ensures outcome == Route(msg, env)
      ensures sessions == AfterProcess(old(sessions), msg, env, outcome)
      ensures outcome.Ignored? || outcome.ReplyHandled? ==> log == old(log) && warnings == old(warnings)
      ensures !outcome.Ignored? && !outcome.ReplyHandled? ==>
                Appended(old(log), old(warnings), log, warnings,
                         SearchRow(msg.date, msg.text, env.splitTokens(msg.text), OutcomeTag(outcome)), written)
    {
      if msg.senderIsBot {
        return Ignored;
      }
      if msg.repliesToForward {
        return ReplyHandled;
      }
      FinishUsers(env.pruneUsers(msg.sender));

      var tokens := env.splitTokens(msg.text);
      if tokens == [] {
        WriteSearchLog(msg, [], EmptyTag, written);
        return EmptyInput;
      }

      outcome := Answer(msg, tokens, env, written);
    }

    /** The part of `process` after the empty-input check: reset the sender's session, then run the stages. */
    method Answer(msg: Message, tokens: seq<string>, env: Env, written: bool) returns (outcome: Outcome)
      requires Valid()
      modifies this
      ensures Valid()
      ensures outcome == Stages(msg, tokens, env)
      ensures sessions == AfterStages(old(sessions), msg.sender, outcome)
      ensures !outcome.Ignored? && !outcome.ReplyHandled?
      ensures Appended(old(log), old(warnings), log, warnings,
                       SearchRow(msg.date, msg.text, tokens, OutcomeTag(outcome)), written)
    {
      sessions := sessions[msg.sender := Finished];

      var reply := Predefined.TestPredefined(tokens, msg.text, env.responses, env.rolesOf(msg.sender), env.hasKeyword);
      if reply.Some? {
        WriteSearchLog(msg, tokens, PredefinedTag, written);
        return PredefinedReply(reply.value);
      }

      if env.testAddress(tokens) {
        WriteSearchLog(msg, tokens, AddressTag, written);
        return AddressFound;
      }

      var pois, query := ProcessQuery(msg, tokens, env.findPoi, written);
      return QueryAnswered(pois, query);
    }

    /** `welcome`: the `/start` command, with an optional POI id or search text as argument. */
    method Welcome(msg: Message, env: Env, written: bool) returns (outcome: StartOutcome)
      requires Valid()
      modifies this
      ensures Valid()
      ensures outcome == StartRoute(msg, env)
      ensures sessions == AfterStart(old(sessions), msg.sender, outcome)
      ensures !outcome.StartSearch? ==> log == old(log) && warnings == old(warnings)
      ensures outcome.StartSearch? ==>
                Appended(old(log), old(warnings), log, warnings,
                         SearchRow(msg.date, msg.text, outcome.tokens, QueryTag(outcome.pois)), written)
    {
      sessions := sessions[msg.sender := Finished];
      var payload := msg.args;
      if payload == "" {
        return Started;
      }
      var n := ParseInt(payload);
      if n.Some? {
        var poi := env.poiById(n.value);
        if poi.None? {
          return PoiLookupFailed(n.value);
        }
        sessions := sessions[msg.sender := Session(PoiShown, OnePoi(poi.value))];
        return ShowPoi(poi.value);
      }
      var tokens := env.splitTokens(payload);
      if tokens == [] {
        return NothingToSearch;
      }
      var pois, query := ProcessQuery(msg, tokens, env.findPoi, written);
      return StartSearch(tokens, pois, query);
    }
  }
}
