/**
 The runtime token service: a hash-keyed map filtered in place, which accepts a token exactly
 when its own history of calls says the token is still in force.
 */
module RuntimeTokens {
  import opened Wire
  import opened Text

  datatype Scope = TeamContext | TeamCall | ConversationHelper
  datatype Claims = Claims(user: string, conversation: string, scopes: set<Scope>, issuedAt: nat, generation: string)
  datatype Entry = Entry(token: string, claims: Claims)

  datatype Refusal = Missing | Unknown | UserMismatch | ConversationMismatch | ScopeMissing | GenerationMismatch
  datatype Verdict = Accepted(claims: Claims) | Denied(why: Refusal)

  datatype Call =
    | Issue(user: string, conversation: string, generation: string, scopes: set<Scope>, token: string, now: nat)
    | DropConversation(user: string, conversation: string)
    | DropConversationId(conversation: string)
    | DropGeneration(conversation: string, generation: string)

  // ---- the history-based specification ----

  /** An issue for this pair is answered by the token already held. */
  predicate Covers(held: Option<Entry>, generation: string, scopes: set<Scope>) {
    held.Some? && held.value.claims.generation == generation && scopes <= held.value.claims.scopes
  }

  function Mint(c: Call): Entry
    requires c.Issue?
  {
    Entry(c.token, Claims(c.user, c.conversation, c.scopes, c.now, c.generation))
  }

  function Next(held: Option<Entry>, c: Call, user: string, conversation: string): Option<Entry> {
    match c
    case Issue(u, v, g, scopes, _, _) =>
      if u == user && v == conversation && !Covers(held, g, scopes) then Some(Mint(c)) else held
    case DropConversation(u, v) => if u == user && v == conversation then None else held
    case DropConversationId(v) => if v == conversation then None else held
    case DropGeneration(v, g) =>
      if v == conversation && held.Some? && held.value.claims.generation == g then None else held
  }

  /** The token one user holds for one conversation after these calls. */
  function InForce(calls: seq<Call>, user: string, conversation: string): Option<Entry> {
    if calls == [] then None
    else Next(InForce(calls[..|calls| - 1], user, conversation), calls[|calls| - 1], user, conversation)
  }

  /** Call `j` minted this entry: it was issued then, not answered by an older token. */
  predicate Minted(calls: seq<Call>, j: nat, e: Entry)
    requires j < |calls|
  {
    && calls[j].Issue? && Mint(calls[j]) == e
    && !Covers(InForce(calls[..j], e.claims.user, e.claims.conversation), e.claims.generation, e.claims.scopes)
  }

  /** A call that ends an entry: its invalidation in one of three ways, or its replacement. */
  predicate Ends(c: Call, e: Entry) {
    match c
    case Issue(u, v, g, scopes, _, _) =>
      u == e.claims.user && v == e.claims.conversation && !(g == e.claims.generation && scopes <= e.claims.scopes)
    case DropConversation(u, v) => u == e.claims.user && v == e.claims.conversation
    case DropConversationId(v) => v == e.claims.conversation
    case DropGeneration(v, g) => v == e.claims.conversation && g == e.claims.generation
  }

  /** Minted at some point and ended by no later call. */
  ghost predicate StillStands(calls: seq<Call>, e: Entry) {
    exists j: nat | j < |calls| :: Minted(calls, j, e) && forall k | j < k < |calls| :: !Ends(calls[k], e)
  }

  lemma {:induction false} InForceBelongs(calls: seq<Call>, user: string, conversation: string)
    ensures var held := InForce(calls, user, conversation);
      held.Some? ==> held.value.claims.user == user && held.value.claims.conversation == conversation
  {
    if calls != [] {
      InForceBelongs(calls[..|calls| - 1], user, conversation);
    }
  }

  lemma HeldStep(calls: seq<Call>, e: Entry)
    requires calls != []
    ensures var n := |calls| - 1; var u, v := e.claims.user, e.claims.conversation;
      InForce(calls, u, v) == Some(e)
      <==> Minted(calls, n, e) || (InForce(calls[..n], u, v) == Some(e) && !Ends(calls[n], e))
  {
    InForceBelongs(calls[..|calls| - 1], e.claims.user, e.claims.conversation);
  }

  lemma StandsStep(calls: seq<Call>, e: Entry)
    requires calls != []
    ensures var n := |calls| - 1;
      StillStands(calls, e) <==> Minted(calls, n, e) || (StillStands(calls[..n], e) && !Ends(calls[n], e))
  {
    var n := |calls| - 1;
    var was := calls[..n];
    forall j: nat | j < n ensures Minted(calls, j, e) == Minted(was, j, e) {
      assert calls[..j] == was[..j] && calls[j] == was[j];
    }
    hide Minted;
    if Minted(calls, n, e) {
    } else if StillStands(was, e) && !Ends(calls[n], e) {
      var j: nat :| j < n && Minted(was, j, e) && forall k | j < k < n :: !Ends(was[k], e);
      assert forall k | j < k < n :: calls[k] == was[k];
      assert Minted(calls, j, e);
    }
  }

  /** The fold and the history agree: a token is held if and only if it was minted and never ended. */
  lemma {:induction false} HeldIffStillStands(calls: seq<Call>, e: Entry)
    ensures InForce(calls, e.claims.user, e.claims.conversation) == Some(e) <==> StillStands(calls, e)
  {
    if calls != [] {
      hide InForce, Minted, StillStands, Ends;
      HeldIffStillStands(calls[..|calls| - 1], e);
      HeldStep(calls, e);
      StandsStep(calls, e);
    }
  }

  // ---- fresh tokens ----

  /** Every token a history could have minted. */
  function Tokens(calls: seq<Call>): set<string> {
    set j | 0 <= j < |calls| && calls[j].Issue? :: calls[j].token
  }

  /** The generator never repeats itself, and mints nothing a trim would change. */
  predicate Fresh(calls: seq<Call>, token: string) {
    Trimmed(token) && token !in Tokens(calls)
  }

  lemma {:induction false} InForceIsToken(calls: seq<Call>, user: string, conversation: string)
    ensures var held := InForce(calls, user, conversation); held.Some? ==> held.value.token in Tokens(calls)
  {
    if calls != [] {
      InForceIsToken(calls[..|calls| - 1], user, conversation);
      assert forall j | 0 <= j < |calls| - 1 :: calls[j] == calls[..|calls| - 1][j];
      assert calls[|calls| - 1].Issue? ==> calls[|calls| - 1].token in Tokens(calls);
    }
  }

  lemma InForceSnoc(calls: seq<Call>, c: Call, user: string, conversation: string)
    ensures InForce(calls + [c], user, conversation) == Next(InForce(calls, user, conversation), c, user, conversation)
  {
    assert (calls + [c])[..|calls|] == calls;
  }

  // ---- the service ----

  type Table = map<string, Entry>
  type Hash = string -> string

  ghost predicate Injective(hash: Hash) {
    forall a, b :: hash(a) == hash(b) ==> a == b
  }

  /** The table holds exactly the entries in force, each under its token's hash. */
  ghost predicate Represents(tokens: Table, calls: seq<Call>, hash: Hash) {
    && (forall h | h in tokens :: h == hash(tokens[h].token)
          && InForce(calls, tokens[h].claims.user, tokens[h].claims.conversation) == Some(tokens[h]))
    && (forall u, v | InForce(calls, u, v).Some? ::
          hash(InForce(calls, u, v).value.token) in tokens
          && tokens[hash(InForce(calls, u, v).value.token)] == InForce(calls, u, v).value)
  }

  predicate Answers(c: Claims, user: string, conversation: string, generation: string, scopes: set<Scope>) {
    c.user == user && c.conversation == conversation && c.generation == generation && scopes <= c.scopes
  }

  class RuntimeTokenService {
    var tokens: Table
    const hash: Hash
    ghost var history: seq<Call>

    ghost predicate Valid()
      reads this
    {
      Injective(hash) && Represents(tokens, history, hash)
    }

    constructor (hash: Hash)
      requires Injective(hash)
      ensures Valid() && this.hash == hash && history == []
    {
      this.hash, tokens, history := hash, map[], [];
    }

    /** The first matching entry the map yields; there is at most one, so the order cannot matter. */
    method ExistingToken(user: string, conversation: string, generation: string, scopes: set<Scope>)
      returns (found: Option<Entry>)
      requires Valid()
      ensures var held := InForce(history, user, conversation);
        found == if Covers(held, generation, scopes) then held else None
    {
      InForceBelongs(history, user, conversation);
      if h :| h in tokens && Answers(tokens[h].claims, user, conversation, generation, scopes) {
        found := Some(tokens[h]);
      } else {
        found := None;
        ghost var held := InForce(history, user, conversation);
        assert held.Some? ==> hash(held.value.token) in tokens;
      }
    }

    /** The held token if it covers the request, else a fresh one that replaces it. */
    method IssueToken(user: string, conversation: string, generation: string, scopes: set<Scope>, token: string,
                      now: nat)
      returns (issued: Entry)
      requires Valid() && Fresh(history, token)
      modifies this
      ensures Valid() && history == old(history) + [Issue(user, conversation, generation, scopes, token, now)]
      ensures InForce(history, user, conversation) == Some(issued)
      ensures issued.claims.generation == generation && scopes <= issued.claims.scopes
    {
      ghost var c := Issue(user, conversation, generation, scopes, token, now);
      ghost var was := history;
      InForceSnoc(history, c, user, conversation);
      var existing := ExistingToken(user, conversation, generation, scopes);
      if existing.Some? {
        history := history + [c];
        KeptByIssue(tokens, was, c, hash);
        return existing.value;
      }
      issued := Entry(token, Claims(user, conversation, scopes, now, generation));
      ghost var before := tokens;
      tokens := map h | h in tokens
        && !(tokens[h].claims.user == user && tokens[h].claims.conversation == conversation) :: tokens[h];
      tokens := tokens[hash(token) := issued];
      history := history + [c];
      MintedByIssue(before, was, c, hash);
    }

    method InvalidateConversation(user: string, conversation: string)
      requires Valid()
      modifies this
      ensures Valid() && history == old(history) + [DropConversation(user, conversation)]
    {
      ghost var was := tokens;
      tokens := map h | h in tokens
        && !(tokens[h].claims.user == user && tokens[h].claims.conversation == conversation) :: tokens[h];
      FilteredByDrop(was, history, DropConversation(user, conversation), hash);
      history := history + [DropConversation(user, conversation)];
    }

    method InvalidateConversationId(conversation: string)
      requires Valid()
      modifies this
      ensures Valid() && history == old(history) + [DropConversationId(conversation)]
    {
      ghost var was := tokens;
      tokens := map h | h in tokens && tokens[h].claims.conversation != conversation :: tokens[h];
      FilteredByDrop(was, history, DropConversationId(conversation), hash);
      history := history + [DropConversationId(conversation)];
    }

    method InvalidateGeneration(conversation: string, generation: string)
      requires Valid()
      modifies this
      ensures Valid() && history == old(history) + [DropGeneration(conversation, generation)]
    {
      ghost var was := tokens;
      tokens := map h | h in tokens
        && !(tokens[h].claims.conversation == conversation && tokens[h].claims.generation == generation) :: tokens[h];
      FilteredByDrop(was, history, DropGeneration(conversation, generation), hash);
      history := history + [DropGeneration(conversation, generation)];
    }

    /**
     A presented token is accepted if and only if this user holds it for this conversation,
     with the scope and the generation asked for; and otherwise the first failing check is named.
     */
    method Validate(raw: Option<string>, user: string, conversation: string, scope: Scope, generation: string)
      returns (v: Verdict)
      requires Valid()
      ensures v.Accepted? <==>
        raw.Some? && exists e ::
          && InForce(history, user, conversation) == Some(e) && e.token == Trim(raw.value) && e.token != ""
          && scope in e.claims.scopes && e.claims.generation == generation
      ensures v.Accepted? && InForce(history, user, conversation).Some? ==>
        v.claims == InForce(history, user, conversation).value.claims
      ensures v == Denied(Missing) <==> raw.None? || Trim(raw.value) == ""
      ensures forall u, c ::
        var held := InForce(history, u, c);
        raw.Some? && Trim(raw.value) != "" && held.Some? && held.value.token == Trim(raw.value) ==>
          v == if u != user then Denied(UserMismatch)
               else if c != conversation then Denied(ConversationMismatch)
               else if scope !in held.value.claims.scopes then Denied(ScopeMissing)
               else if held.value.claims.generation != generation then Denied(GenerationMismatch)
               else Accepted(held.value.claims)
      ensures v == Denied(Unknown) <==>
        raw.Some? && Trim(raw.value) != ""
        && forall u, c :: InForce(history, u, c).Some? ==> InForce(history, u, c).value.token != Trim(raw.value)
    {
      if raw.None? || Trim(raw.value) == "" {
        return Denied(Missing);
      }
      var token := Trim(raw.value);
      if hash(token) !in tokens {
        return Denied(Unknown);
      }
      var claims := tokens[hash(token)].claims;
      assert tokens[hash(token)].token == token;
      assert InForce(history, claims.user, claims.conversation) == Some(tokens[hash(token)]);
      forall u, c ensures var e := InForce(history, u, c);
        e.Some? && e.value.token == token ==> u == claims.user && c == claims.conversation && e.value.claims == claims
      {
        InForceBelongs(history, u, c);
      }
      ghost var held := InForce(history, user, conversation);
      assert held.Some? && held.value.token == token ==> tokens[hash(token)] == held.value;
      if claims.user != user {
        return Denied(UserMismatch);
      }
      if claims.conversation != conversation {
        return Denied(ConversationMismatch);
      }
      if scope !in claims.scopes {
        return Denied(ScopeMissing);
      }
      if claims.generation != generation {
        return Denied(GenerationMismatch);
      }
      return Accepted(claims);
    }
  }

  /** An issue answered by the held token changes nothing that is in force. */
  lemma KeptByIssue(tokens: Table, calls: seq<Call>, c: Call, hash: Hash)
    requires Represents(tokens, calls, hash)
    requires c.Issue? && Covers(InForce(calls, c.user, c.conversation), c.generation, c.scopes)
    ensures Represents(tokens, calls + [c], hash)
  {
    forall u, v ensures InForce(calls + [c], u, v) == InForce(calls, u, v) {
      InForceSnoc(calls, c, u, v);
    }
  }

  lemma MintedByIssue(tokens: Table, calls: seq<Call>, c: Call, hash: Hash)
    requires Injective(hash) && Represents(tokens, calls, hash)
    requires c.Issue? && Fresh(calls, c.token)
    requires !Covers(InForce(calls, c.user, c.conversation), c.generation, c.scopes)
    ensures var kept := map h | h in tokens
              && !(tokens[h].claims.user == c.user && tokens[h].claims.conversation == c.conversation) :: tokens[h];
      Represents(kept[hash(c.token) := Mint(c)], calls + [c], hash)
  {
    hide Covers, Mint, InForce, Tokens;
    forall u, v
      ensures InForce(calls + [c], u, v)
              == if u == c.user && v == c.conversation then Some(Mint(c)) else InForce(calls, u, v)
      ensures InForce(calls, u, v).Some? ==> InForce(calls, u, v).value.token != c.token
      ensures InForce(calls, u, v).Some? ==>
        InForce(calls, u, v).value.claims.user == u && InForce(calls, u, v).value.claims.conversation == v
    {
      InForceSnoc(calls, c, u, v);
      InForceIsToken(calls, u, v);
      InForceBelongs(calls, u, v);
    }
    MintIs(c);
  }

  lemma MintIs(c: Call)
    requires c.Issue?
    ensures Mint(c).token == c.token
    ensures Mint(c).claims.user == c.user && Mint(c).claims.conversation == c.conversation
  {
  }

  /** Each `retain` drops exactly the entries its call ends. */
  lemma FilteredByDrop(tokens: Table, calls: seq<Call>, c: Call, hash: Hash)
    requires Represents(tokens, calls, hash) && !c.Issue?
    ensures Represents(map h | h in tokens && !Ends(c, tokens[h]) :: tokens[h], calls + [c], hash)
  {
    forall u, v
      ensures InForce(calls + [c], u, v) == Next(InForce(calls, u, v), c, u, v)
      ensures InForce(calls, u, v).Some? ==>
        InForce(calls, u, v).value.claims.user == u && InForce(calls, u, v).value.claims.conversation == v
    {
      InForceSnoc(calls, c, u, v);
      InForceBelongs(calls, u, v);
    }
  }
}
