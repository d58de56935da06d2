/**
 * `test_predefined`: the configured canned responses, scanned in declaration order;
 * the first whose keywords match and whose role gate (if any) the user passes is sent.
 */
module Predefined {
  import opened Wrappers
  import opened Text

  /**
   * One entry of the configured response list. The optional fields are the keys the
   * entry may leave out: a required role, a heading name and a message body.
   */
  datatype Response = Response(keywords: seq<string>, role: Option<string>, name: Option<string>, message: Option<string>)

  /**
   * What a message is matched with: the tokens joined by spaces, the message text
   * lower-cased and trimmed, the sender's roles, and the keyword test `has_keyword`
   * (another module, so a parameter here).
   */
  datatype Input = Input(allTokens: string, query: string, roles: set<string>, hasKeyword: (string, seq<string>) -> bool)

  function InputOf(tokens: seq<string>, text: string, roles: set<string>, hasKeyword: (string, seq<string>) -> bool): Input {
    Input(Join(tokens, " "), Strip(Lower(text)), roles, hasKeyword)
  }

  /** The selected entry's position in the list and the text sent for it. */
  datatype Reply = Reply(index: nat, content: string)

  /** The entry's keywords, lower-cased one by one. */
  function LowerKeywords(keywords: seq<string>): (kw: seq<string>)
    ensures |kw| == |keywords|
  {
    seq(|keywords|, i requires 0 <= i < |keywords| => Lower(keywords[i]))
  }

  /** The keyword test passes on the joined tokens or on the trimmed text. */
  predicate Matches(r: Response, input: Input) {
    var kw := LowerKeywords(r.keywords);
    input.hasKeyword(input.allTokens, kw) || input.hasKeyword(input.query, kw)
  }

  /** An entry without a role is open to everyone; one with a role needs the user to hold it. */
  predicate RoleAllows(r: Response, roles: set<string>) {
    r.role.None? || r.role.value in roles
  }

  predicate Eligible(r: Response, input: Input) {
    Matches(r, input) && RoleAllows(r, input.roles)
  }

  /** The position of the first eligible entry at or after `i`. */
  function FirstEligibleFrom(rs: seq<Response>, i: nat, input: Input): (r: Option<nat>)
    requires i <= |rs|
    ensures r.Some? ==> i <= r.value < |rs|
    decreases |rs| - i
  {
    if i == |rs| then None
    else if Eligible(rs[i], input) then Some(i)
    else FirstEligibleFrom(rs, i + 1, input)
  }

  /**
   * The reply text: the name (empty when absent), then a blank line when both the name
   * is non-empty and a message is present, then the message.
   */
  function Compose(name: Option<string>, message: Option<string>): (content: string)
    ensures var n := name.GetOr("");
            && |content| == |n| + (if message.Some? then |message.value| else 0)
                            + (if message.Some? && n != "" then 2 else 0)
            && content[..|n|] == n
            && (message.Some? ==> content[|content| - |message.value|..] == message.value)
            && (message.Some? && n != "" ==> content[|n|..|n| + 2] == "\n\n")
  {
    var n := name.GetOr("");
    if message.None? then n
    else if n == "" then message.value
    else n + "\n\n" + message.value
  }

  /** The reply `test_predefined` sends, if any. */
  function Select(rs: seq<Response>, input: Input): Option<Reply> {
    match FirstEligibleFrom(rs, 0, input)
    case None => None
    case Some(k) => Some(Reply(k, Compose(rs[k].name, rs[k].message)))
  }

  lemma {:induction false} FirstEligibleFromIsFirst(rs: seq<Response>, i: nat, input: Input)
    requires i <= |rs|
    ensures FirstEligibleFrom(rs, i, input).None? <==> forall j :: i <= j < |rs| ==> !Eligible(rs[j], input)
    ensures FirstEligibleFrom(rs, i, input).Some? ==>
              var k := FirstEligibleFrom(rs, i, input).value;
              i <= k < |rs| && Eligible(rs[k], input) && forall j :: i <= j < k ==> !Eligible(rs[j], input)
    decreases |rs| - i
  {
    if i < |rs| && !Eligible(rs[i], input) {
      FirstEligibleFromIsFirst(rs, i + 1, input);
    }
  }

  /**
   * A reply is sent exactly when some entry is eligible; it is for the first eligible
   * entry, every earlier entry failing its keywords or its role gate, and its text is
   * that entry's name and message.
   */
  lemma SelectIsFirstEligible(rs: seq<Response>, input: Input)
    ensures Select(rs, input).Some? <==> exists k :: 0 <= k < |rs| && Eligible(rs[k], input)
    ensures Select(rs, input).Some? ==>
              var k := Select(rs, input).value.index;
              && k < |rs| && Eligible(rs[k], input)
              && (forall j :: 0 <= j < k ==> !Eligible(rs[j], input))
              && Select(rs, input).value.content == Compose(rs[k].name, rs[k].message)
  {
    FirstEligibleFromIsFirst(rs, 0, input);
  }

  /**
   * A matching entry whose role the user lacks is never selected and does not stop the
   * scan: the next eligible entry after it is chosen.
   */
  lemma RoleGateSkips(rs: seq<Response>, input: Input, j: nat, k: nat)
    requires j < k < |rs|
    requires Matches(rs[j], input) && !RoleAllows(rs[j], input.roles)
    requires Eligible(rs[k], input)
    requires forall i :: 0 <= i < k && i != j ==> !Eligible(rs[i], input)
    ensures Select(rs, input).Some? && Select(rs, input).value.index == k
  {
    SelectIsFirstEligible(rs, input);
  }

  /** `test_predefined`'s scan; the photo and the keyboard it sends are not modelled. */
  method TestPredefined(tokens: seq<string>, text: string, responses: seq<Response>, roles: set<string>,
                        hasKeyword: (string, seq<string>) -> bool)
    returns (reply: Option<Reply>)
    ensures reply == Select(responses, InputOf(tokens, text, roles, hasKeyword))
  {
    var allTokens := Join(tokens, " ");
    var query := Strip(Lower(text));
    ghost var input := Input(allTokens, query, roles, hasKeyword);
    assert input == InputOf(tokens, text, roles, hasKeyword);
    var i := 0;
    while i < |responses|
      invariant 0 <= i <= |responses|
      invariant FirstEligibleFrom(responses, 0, input) == FirstEligibleFrom(responses, i, input)
    {
      var resp := responses[i];
      var kw := LowerKeywords(resp.keywords);
      if hasKeyword(allTokens, kw) || hasKeyword(query, kw) {
        if resp.role.Some? && resp.role.value !in roles {
          i := i + 1;
          continue;
        }
        var content := resp.name.GetOr("");
        if resp.message.Some? {
          if content != "" {
            content := content + "\n\n";
          }
          content := content + resp.message.value;
        }
        assert content == Compose(resp.name, resp.message);
        assert FirstEligibleFrom(responses, i, input) == Some(i);
        return Some(Reply(i, content));
      }
      i := i + 1;
    }
    return None;
  }
}
