// An OpenAI conversation as Anthropic takes it: a system prompt and turns
// whose roles alternate. The flat list of (role, block) is the meaning; the
// turns are the one grouping of it.

module Turns {
  import opened Text

  datatype Block = TextBlock(text: string) | ImageBlock(url: string) | ToolUse(id: string, name: string, input: Input)
    | ToolResult(id: string, text: string)

  // A tool call's arguments as JSON, or the empty object.
  datatype Input = EmptyObject | Arguments(json: string)

  datatype Part = TextPart(text: string) | ImagePart(url: string) | OtherPart

  datatype Content = Null | Words(text: string) | Parts(parts: seq<Part>) | Malformed

  datatype ToolCall = ToolCall(id: string, name: string, arguments: string)

  datatype Role = System | Developer | Tool | Assistant | User | Named(text: string)

  datatype WireMessage = WireMessage(role: Role, content: Content, toolCallId: string, toolCalls: seq<ToolCall>)

  datatype Turn = Turn(role: Role, blocks: seq<Block>)

  datatype Tagged = Tagged(role: Role, block: Block)

  // ----- content -----

  function TextBlocks(s: string): seq<Block> {
    if s == "" then [] else [TextBlock(s)]
  }

  function PartBlocks(p: Part): seq<Block> {
    match p
    case TextPart(t) => TextBlocks(t)
    case ImagePart(u) => [ImageBlock(u)]
    case OtherPart => []
  }

  function PartsBlocks(parts: seq<Part>): seq<Block> {
    if parts == [] then [] else PartsBlocks(parts[..|parts| - 1]) + PartBlocks(parts[|parts| - 1])
  }

  // The blocks of a content value; a malformed one has none.
  function ContentBlocks(c: Content): seq<Block> {
    match c
    case Null => []
    case Words(s) => TextBlocks(s)
    case Parts(ps) => PartsBlocks(ps)
    case Malformed => []
  }

  function TextsOf(blocks: seq<Block>): seq<string> {
    if blocks == [] then []
    else
      var front, b := TextsOf(blocks[..|blocks| - 1]), blocks[|blocks| - 1];
      if b.TextBlock? then front + [b.text] else front
  }

  function Concat(texts: seq<string>): string {
    if texts == [] then "" else Concat(texts[..|texts| - 1]) + texts[|texts| - 1]
  }

  // ----- what each message contributes -----

  predicate IsSystem(role: Role) {
    role == System || role == Developer
  }

  function RoleOf(m: WireMessage): Role {
    if m.role == Assistant then Assistant else User
  }

  // Arguments that are blank or not valid JSON are sent as an empty object.
  function UseBlock(c: ToolCall, valid: string -> bool): Block {
    ToolUse(c.id, c.name,
            if Trim(c.arguments) == "" || !valid(c.arguments) then EmptyObject else Arguments(c.arguments))
  }

  function UseBlocks(calls: seq<ToolCall>, valid: string -> bool): seq<Block> {
    seq(|calls|, i requires 0 <= i < |calls| => UseBlock(calls[i], valid))
  }

  function BlocksOf(m: WireMessage, valid: string -> bool): seq<Block> {
    if IsSystem(m.role) then []
    else if m.role == Tool then [ToolResult(m.toolCallId, Concat(TextsOf(ContentBlocks(m.content))))]
    else if m.role == Assistant then ContentBlocks(m.content) + UseBlocks(m.toolCalls, valid)
    else ContentBlocks(m.content)
  }

  predicate Refused(m: WireMessage) {
    m.role != Tool && m.content.Malformed?
  }

  function TagAll(role: Role, blocks: seq<Block>): seq<Tagged> {
    seq(|blocks|, i requires 0 <= i < |blocks| => Tagged(role, blocks[i]))
  }

  // The conversation as an ordered list of blocks, each with who says it.
  function Flat(msgs: seq<WireMessage>, valid: string -> bool): seq<Tagged> {
    if msgs == [] then []
    else
      var m := msgs[|msgs| - 1];
      Flat(msgs[..|msgs| - 1], valid) + TagAll(RoleOf(m), BlocksOf(m, valid))
  }

  function SystemTexts(msgs: seq<WireMessage>): seq<string> {
    if msgs == [] then []
    else
      var front, m := SystemTexts(msgs[..|msgs| - 1]), msgs[|msgs| - 1];
      if IsSystem(m.role) then front + TextsOf(ContentBlocks(m.content)) else front
  }

  // ----- turns -----

  function Ungroup(turns: seq<Turn>): seq<Tagged> {
    if turns == [] then []
    else Ungroup(turns[..|turns| - 1]) + TagAll(turns[|turns| - 1].role, turns[|turns| - 1].blocks)
  }

  // Turns that say exactly flat, none empty, no two neighbours of one role.
  ghost predicate Groups(turns: seq<Turn>, flat: seq<Tagged>) {
    && Ungroup(turns) == flat
    && (forall i :: 0 <= i < |turns| ==> turns[i].blocks != [])
    && (forall i :: 0 < i < |turns| ==> turns[i - 1].role != turns[i].role)
  }

  ghost predicate RolesIn(turns: seq<Turn>, roles: set<Role>) {
    forall i :: 0 <= i < |turns| ==> turns[i].role in roles
  }

  // Consecutive blocks of one role are one turn: the append every message
  // goes through.
  method AddTurn(turns: seq<Turn>, role: Role, blocks: seq<Block>, ghost flat: seq<Tagged>, ghost roles: set<Role>)
    returns (out: seq<Turn>)
    requires Groups(turns, flat) && RolesIn(turns, roles) && role in roles
    ensures Groups(out, flat + TagAll(role, blocks)) && RolesIn(out, roles)
  {
    if |blocks| == 0 {
      assert flat + TagAll(role, blocks) == flat;
      return turns;
    }
    var n := |turns|;
    if n > 0 && turns[n - 1].role == role {
      out := turns[n - 1 := Turn(role, turns[n - 1].blocks + blocks)];
      assert out[..n - 1] == turns[..n - 1];
      assert TagAll(role, turns[n - 1].blocks + blocks) == TagAll(role, turns[n - 1].blocks) + TagAll(role, blocks);
      return;
    }
    out := turns + [Turn(role, blocks)];
    assert out[..n] == turns;
  }

  // The blocks of one message that is not the system's.
  method MessageBlocks(m: WireMessage, valid: string -> bool) returns (role: Role, blocks: seq<Block>)
    requires !IsSystem(m.role)
    ensures role == RoleOf(m) && blocks == BlocksOf(m, valid)
  {
    if m.role == Tool {
      var text := Concat(TextsOf(ContentBlocks(m.content)));
      return User, [ToolResult(m.toolCallId, text)];
    }
    blocks := ContentBlocks(m.content);
    if m.role == Assistant {
      for i := 0 to |m.toolCalls|
        invariant blocks == ContentBlocks(m.content) + UseBlocks(m.toolCalls, valid)[..i]
      {
        var text := m.toolCalls[i].arguments;
        var input := Arguments(text);
        if Trim(text) == "" || !valid(text) {
          input := EmptyObject;
        }
        blocks := blocks + [ToolUse(m.toolCalls[i].id, m.toolCalls[i].name, input)];
      }
      assert UseBlocks(m.toolCalls, valid)[..|m.toolCalls|] == UseBlocks(m.toolCalls, valid);
      return Assistant, blocks;
    }
    return User, blocks;
  }

  lemma FlatOneMore(msgs: seq<WireMessage>, k: nat, valid: string -> bool)
    requires k < |msgs|
    ensures Flat(msgs[..k + 1], valid) == Flat(msgs[..k], valid) + TagAll(RoleOf(msgs[k]), BlocksOf(msgs[k], valid))
    ensures SystemTexts(msgs[..k + 1]) == SystemTexts(msgs[..k]) + SystemOf(msgs[k])
  {
    OneMoreMessage(msgs[..k], msgs[k], valid);
    assert msgs[..k + 1] == msgs[..k] + [msgs[k]];
  }

  function SystemOf(m: WireMessage): seq<string> {
    if IsSystem(m.role) then TextsOf(ContentBlocks(m.content)) else []
  }

  // What has been read of a conversation.
  ghost predicate Reads(msgs: seq<WireMessage>, valid: string -> bool, system: seq<string>, turns: seq<Turn>) {
    Groups(turns, Flat(msgs, valid)) && system == SystemTexts(msgs) && RolesIn(turns, {User, Assistant})
  }

  // One message more: to the system prompt, or to the turns.
  method Place(ghost msgs: seq<WireMessage>, ghost k: nat, m: WireMessage, valid: string -> bool, system: seq<string>,
               turns: seq<Turn>)
    returns (system': seq<string>, turns': seq<Turn>)
    requires k < |msgs| && msgs[k] == m && Reads(msgs[..k], valid, system, turns)
    ensures Reads(msgs[..k + 1], valid, system', turns')
  {
    FlatOneMore(msgs, k, valid);
    ghost var flat := Flat(msgs[..k], valid);
    system', turns' := system, turns;
    if m.role == System || m.role == Developer {
      system' := system + TextsOf(ContentBlocks(m.content));
      assert flat + TagAll(RoleOf(m), BlocksOf(m, valid)) == flat;
    } else {
      var role, blocks := MessageBlocks(m, valid);
      turns' := AddTurn(turns, role, blocks, flat, {User, Assistant});
    }
  }

  // The conversation read from the caller's own body.
  method Conversation(msgs: seq<WireMessage>, valid: string -> bool)
    returns (system: seq<string>, turns: seq<Turn>, err: bool)
    ensures err <==> exists m :: m in msgs && m.role != Tool && m.content == Malformed
    ensures !err ==> Reads(msgs, valid, system, turns)
  {
    system, turns, err := [], [], false;
    for k := 0 to |msgs|
      invariant !AnyRefused(msgs[..k])
      invariant Reads(msgs[..k], valid, system, turns)
    {
      if Refused(msgs[k]) {
        return [], [], true;
      }
      assert msgs[..k + 1] == msgs[..k] + [msgs[k]];
      system, turns := Place(msgs, k, msgs[k], valid, system, turns);
    }
    assert msgs[..|msgs|] == msgs;
  }

  predicate AnyRefused(msgs: seq<WireMessage>) {
    exists m :: m in msgs && Refused(m)
  }

  // ----- the typed conversation, for a request without a body -----

  datatype TypedMessage = TypedMessage(role: Role, content: string)

  function TypedFlat(msgs: seq<TypedMessage>): seq<Tagged> {
    if msgs == [] then []
    else
      var m := msgs[|msgs| - 1];
      TypedFlat(msgs[..|msgs| - 1]) + if m.role == System then [] else TagAll(m.role, TextBlocks(m.content))
  }

  function TypedSystem(msgs: seq<TypedMessage>): seq<string> {
    if msgs == [] then []
    else
      var front, m := TypedSystem(msgs[..|msgs| - 1]), msgs[|msgs| - 1];
      if m.role == System then front + [m.content] else front
  }

  lemma OneTyped(m: TypedMessage)
    ensures TypedFlat([m]) == if m.role == System || m.content == "" then [] else [Tagged(m.role, TextBlock(m.content))]
    ensures TypedSystem([m]) == if m.role == System then [m.content] else []
  {
    assert [m][..0] == [];
  }

  lemma {:induction false} TypedInTurn(a: seq<TypedMessage>, b: seq<TypedMessage>)
    ensures TypedFlat(a + b) == TypedFlat(a) + TypedFlat(b)
    ensures TypedSystem(a + b) == TypedSystem(a) + TypedSystem(b)
    decreases |b|
  {
    if b == [] {
      assert a + b == a;
    } else {
      var front, m := b[..|b| - 1], b[|b| - 1];
      TypedInTurn(a, front);
      Regroup(a, front, [m]);
      assert b == front + [m];
      OneMoreTyped(a + front, m);
      OneMoreTyped(front, m);
      Regroup(TypedFlat(a), TypedFlat(front), TypedFlat([m]));
      Regroup(TypedSystem(a), TypedSystem(front), TypedSystem([m]));
    }
  }

  lemma OneMoreTyped(msgs: seq<TypedMessage>, m: TypedMessage)
    ensures TypedFlat(msgs + [m]) == TypedFlat(msgs) + TypedFlat([m])
    ensures TypedSystem(msgs + [m]) == TypedSystem(msgs) + TypedSystem([m])
  {
    OneTyped(m);
    assert (msgs + [m])[..|msgs|] == msgs;
  }

  // A message that becomes a block.
  predicate Speaks(m: TypedMessage) {
    m.role != System && m.content != ""
  }

  function SpeakerRoles(msgs: seq<TypedMessage>): set<Role> {
    set m | m in msgs && Speaks(m) :: m.role
  }

  // The system texts in order, and the turns of the rest.
  ghost predicate TypedReads(msgs: seq<TypedMessage>, system: seq<string>, turns: seq<Turn>) {
    Groups(turns, TypedFlat(msgs)) && system == TypedSystem(msgs)
  }

  lemma TypedOneMore(msgs: seq<TypedMessage>, k: nat)
    requires k < |msgs|
    ensures TypedSystem(msgs[..k + 1]) ==
      if msgs[k].role == System then TypedSystem(msgs[..k]) + [msgs[k].content] else TypedSystem(msgs[..k])
    ensures TypedFlat(msgs[..k + 1]) ==
      if msgs[k].role == System then TypedFlat(msgs[..k])
      else TypedFlat(msgs[..k]) + TagAll(msgs[k].role, TextBlocks(msgs[k].content))
  {
    assert msgs[..k + 1][..k] == msgs[..k];
    assert TypedFlat(msgs[..k]) + [] == TypedFlat(msgs[..k]);
  }

  method TypedConversation(msgs: seq<TypedMessage>) returns (system: seq<string>, turns: seq<Turn>)
    ensures TypedReads(msgs, system, turns)
  {
    system, turns := [], [];
    ghost var roles := set m | m in msgs :: m.role;
    for k := 0 to |msgs|
      invariant TypedReads(msgs[..k], system, turns) && RolesIn(turns, roles)
    {
      TypedOneMore(msgs, k);
      if msgs[k].role == System {
        system := system + [msgs[k].content];
      } else {
        turns := AddTurn(turns, msgs[k].role, TextBlocks(msgs[k].content), TypedFlat(msgs[..k]), roles);
      }
    }
    assert msgs[..|msgs|] == msgs;
  }

  ghost predicate SaidBy(flat: seq<Tagged>, role: Role) {
    exists i :: 0 <= i < |flat| && flat[i].role == role
  }

  ghost predicate SomeTurnOf(turns: seq<Turn>, role: Role) {
    exists k :: 0 <= k < |turns| && turns[k].role == role
  }

  lemma SaidByEither(a: seq<Tagged>, b: seq<Tagged>, role: Role)
    ensures SaidBy(a + b, role) <==> SaidBy(a, role) || SaidBy(b, role)
  {
    if i :| 0 <= i < |a| && a[i].role == role {
      assert (a + b)[i].role == role;
    }
    if i :| 0 <= i < |b| && b[i].role == role {
      assert (a + b)[|a| + i].role == role;
    }
  }

  lemma SaidByOne(tag: Role, blocks: seq<Block>, role: Role)
    ensures SaidBy(TagAll(tag, blocks), role) <==> tag == role && blocks != []
  {
    if tag == role && blocks != [] {
      assert TagAll(tag, blocks)[0].role == role;
    }
  }

  lemma {:induction false} TypedTags(msgs: seq<TypedMessage>, role: Role)
    ensures SaidBy(TypedFlat(msgs), role) <==> role in SpeakerRoles(msgs)
  {
    if msgs != [] {
      var front, m := msgs[..|msgs| - 1], msgs[|msgs| - 1];
      TypedTags(front, role);
      var tags := if m.role == System then [] else TagAll(m.role, TextBlocks(m.content));
      SaidByEither(TypedFlat(front), tags, role);
      SaidByOne(m.role, TextBlocks(m.content), role);
      assert msgs == front + [m];
      assert SpeakerRoles(msgs) == SpeakerRoles(front) + if Speaks(m) then {m.role} else {};
    }
  }

  lemma {:induction false} UngroupedTags(turns: seq<Turn>, role: Role)
    requires forall i :: 0 <= i < |turns| ==> turns[i].blocks != []
    ensures SaidBy(Ungroup(turns), role) <==> SomeTurnOf(turns, role)
  {
    if turns != [] {
      var front, t := turns[..|turns| - 1], turns[|turns| - 1];
      UngroupedTags(front, role);
      SaidByEither(Ungroup(front), TagAll(t.role, t.blocks), role);
      SaidByOne(t.role, t.blocks, role);
      assert turns == front + [t];
      assert SomeTurnOf(turns, role) <==> SomeTurnOf(front, role) || t.role == role;
    }
  }

  // A typed message's role travels as the caller wrote it: the turns have
  // exactly the roles of the messages that say something.
  lemma TypedRolesTravel(msgs: seq<TypedMessage>, system: seq<string>, turns: seq<Turn>, role: Role)
    requires TypedReads(msgs, system, turns)
    ensures SomeTurnOf(turns, role) <==> role in SpeakerRoles(msgs)
  {
    TypedTags(msgs, role);
    UngroupedTags(turns, role);
  }

  // So the turns are "user" and "assistant" exactly when every message that
  // says something, the system's apart, is one or the other.
  lemma TypedRolesIff(msgs: seq<TypedMessage>, system: seq<string>, turns: seq<Turn>)
    requires TypedReads(msgs, system, turns)
    ensures RolesIn(turns, {User, Assistant})
      <==> (forall m :: m in msgs && Speaks(m) ==> m.role == User || m.role == Assistant)
  {
    forall m | m in msgs && Speaks(m) && m.role != User && m.role != Assistant
      ensures !RolesIn(turns, {User, Assistant})
    {
      TypedRolesTravel(msgs, system, turns, m.role);
    }
    forall k | 0 <= k < |turns| ensures turns[k].role in SpeakerRoles(msgs) {
      TypedRolesTravel(msgs, system, turns, turns[k].role);
    }
  }

  // ----- the grouping is forced -----

  lemma LastTurn(turns: seq<Turn>, flat: seq<Tagged>)
    requires Groups(turns, flat) && turns != []
    ensures var t := turns[|turns| - 1];
      && |t.blocks| <= |flat| && flat[|flat| - |t.blocks|..] == TagAll(t.role, t.blocks)
      && Groups(turns[..|turns| - 1], flat[..|flat| - |t.blocks|])
      && (|t.blocks| < |flat| ==> flat[|flat| - |t.blocks| - 1].role != t.role)
  {
    var n := |turns| - 1;
    var front, t := turns[..n], turns[n];
    assert flat == Ungroup(front) + TagAll(t.role, t.blocks);
    assert flat[..|flat| - |t.blocks|] == Ungroup(front);
    if n > 0 {
      var p := turns[n - 1];
      assert front[..n - 1] == turns[..n - 1];
      assert Ungroup(front) == Ungroup(front[..n - 1]) + TagAll(p.role, p.blocks);
    }
  }

  lemma TagAllInjective(role: Role, a: seq<Block>, b: seq<Block>)
    requires TagAll(role, a) == TagAll(role, b)
    ensures a == b
  {
    assert |a| == |TagAll(role, a)| == |b|;
    forall i | 0 <= i < |a| ensures a[i] == b[i] {
      assert TagAll(role, a)[i] == TagAll(role, b)[i];
    }
  }

  // The last turn of any grouping is not shorter than another's.
  lemma LastTurnNotShorter(a: seq<Turn>, b: seq<Turn>, flat: seq<Tagged>)
    requires Groups(a, flat) && Groups(b, flat) && a != [] && b != []
    ensures a[|a| - 1].role == b[|b| - 1].role && |a[|a| - 1].blocks| >= |b[|b| - 1].blocks|
  {
    LastTurn(a, flat);
    LastTurn(b, flat);
    var s, t := a[|a| - 1], b[|b| - 1];
    var x, y := |s.blocks|, |t.blocks|;
    assert flat[|flat| - x..][x - 1] == flat[|flat| - 1] == flat[|flat| - y..][y - 1];
  }

  // There is only one way to group a conversation into turns.
  lemma {:induction false} GroupingIsUnique(a: seq<Turn>, b: seq<Turn>, flat: seq<Tagged>)
    requires Groups(a, flat) && Groups(b, flat)
    ensures a == b
    decreases |a|
  {
    if a == [] || b == [] {
      if a != [] {
        LastTurn(a, flat);
      }
      if b != [] {
        LastTurn(b, flat);
      }
    } else {
      LastTurnNotShorter(a, b, flat);
      LastTurnNotShorter(b, a, flat);
      LastTurn(a, flat);
      LastTurn(b, flat);
      var s, t := a[|a| - 1], b[|b| - 1];
      TagAllInjective(s.role, s.blocks, t.blocks);
      GroupingIsUnique(a[..|a| - 1], b[..|b| - 1], flat[..|flat| - |s.blocks|]);
      assert a == a[..|a| - 1] + [s] && b == b[..|b| - 1] + [t];
    }
  }

  // Which turn says the p-th block.
  function TurnOf(turns: seq<Turn>, p: nat): nat
    requires p < |Ungroup(turns)|
    decreases |turns|
  {
    if p < |Ungroup(turns[..|turns| - 1])| then TurnOf(turns[..|turns| - 1], p) else |turns| - 1
  }

  // Neighbouring blocks of one role share a turn; in particular several tool
  // results answering one parallel call arrive together.
  lemma {:induction false} SameRoleSameTurn(turns: seq<Turn>, flat: seq<Tagged>, p: nat)
    requires Groups(turns, flat) && p + 1 < |flat|
    ensures flat[p].role == flat[p + 1].role <==> TurnOf(turns, p) == TurnOf(turns, p + 1)
    ensures TurnOf(turns, p) <= TurnOf(turns, p + 1) < |turns|
    decreases |turns|
  {
    LastTurn(turns, flat);
    var n := |turns| - 1;
    var t := turns[n];
    var cut := |flat| - |t.blocks|;
    assert Ungroup(turns[..n]) == flat[..cut];
    if p + 1 < cut {
      SameRoleSameTurn(turns[..n], flat[..cut], p);
    } else {
      assert flat[p + 1] == flat[cut..][p + 1 - cut];
      if p >= cut {
        assert flat[p] == flat[cut..][p - cut];
      } else {
        TurnOfBelow(turns[..n], p);
      }
    }
  }

  lemma {:induction false} TurnOfBelow(turns: seq<Turn>, p: nat)
    requires p < |Ungroup(turns)|
    ensures TurnOf(turns, p) < |turns|
    decreases |turns|
  {
    if p < |Ungroup(turns[..|turns| - 1])| {
      TurnOfBelow(turns[..|turns| - 1], p);
    }
  }

  // ----- what a message says -----

  // A system message says nothing here; a tool message is one result, all its
  // text; an assistant's content is followed by its calls, each with its
  // arguments when they are valid JSON and an empty object otherwise; anyone
  // else's content is the user's.
  lemma MessageSays(m: WireMessage, valid: string -> bool)
    ensures m.role == System || m.role == Developer ==> BlocksOf(m, valid) == []
    ensures m.role == Tool ==>
      RoleOf(m) == User && BlocksOf(m, valid) == [ToolResult(m.toolCallId, Concat(TextsOf(ContentBlocks(m.content))))]
    ensures m.role == Assistant ==>
      && RoleOf(m) == Assistant && |BlocksOf(m, valid)| == |ContentBlocks(m.content)| + |m.toolCalls|
      && BlocksOf(m, valid)[..|ContentBlocks(m.content)|] == ContentBlocks(m.content)
      && forall j :: 0 <= j < |m.toolCalls| ==>
           var use, c := BlocksOf(m, valid)[|ContentBlocks(m.content)| + j], m.toolCalls[j];
           && use.ToolUse? && use.id == c.id && use.name == c.name
           && use.input == if Trim(c.arguments) != "" && valid(c.arguments) then Arguments(c.arguments) else EmptyObject
    ensures m.role == User || m.role.Named? ==> RoleOf(m) == User && BlocksOf(m, valid) == ContentBlocks(m.content)
  {
  }

  // A message is one part after another, and says each non-empty text and each
  // image.
  lemma ContentSays(c: Content)
    ensures c == Null || c == Malformed ==> ContentBlocks(c) == []
    ensures c.Words? ==> ContentBlocks(c) == if c.text == "" then [] else [TextBlock(c.text)]
    ensures c.Parts? && |c.parts| == 0 ==> ContentBlocks(c) == []
  {
  }

  lemma PartSays(p: Part)
    ensures p.TextPart? ==> ContentBlocks(Parts([p])) == if p.text == "" then [] else [TextBlock(p.text)]
    ensures p.ImagePart? ==> ContentBlocks(Parts([p])) == [ImageBlock(p.url)]
    ensures p == OtherPart ==> ContentBlocks(Parts([p])) == []
  {
    assert [p][..0] == [];
    assert PartsBlocks([p]) == PartsBlocks([]) + PartBlocks(p);
  }

  lemma Regroup<T>(a: seq<T>, b: seq<T>, c: seq<T>)
    ensures (a + b) + c == a + (b + c)
  {
  }

  lemma OneMorePart(parts: seq<Part>, p: Part)
    ensures PartsBlocks(parts + [p]) == PartsBlocks(parts) + PartBlocks(p)
  {
    assert (parts + [p])[..|parts|] == parts;
  }

  lemma {:induction false} PartsInTurn(a: seq<Part>, b: seq<Part>)
    ensures ContentBlocks(Parts(a + b)) == ContentBlocks(Parts(a)) + ContentBlocks(Parts(b))
    decreases |b|
  {
    if b == [] {
      assert a + b == a;
    } else {
      var front, last := b[..|b| - 1], b[|b| - 1];
      PartsInTurn(a, front);
      Regroup(a, front, [last]);
      assert b == front + [last];
      OneMorePart(a + front, last);
      OneMorePart(front, last);
      Regroup(PartsBlocks(a), PartsBlocks(front), PartBlocks(last));
    }
  }

  // The text of some blocks is every text among them, in order.
  lemma {:induction false} TextsInTurn(a: seq<Block>, b: seq<Block>)
    ensures TextsOf(a + b) == TextsOf(a) + TextsOf(b)
    ensures |a| == 1 ==> TextsOf(a) == if a[0].TextBlock? then [a[0].text] else []
    decreases |b|
  {
    if |a| == 1 {
      assert a[..0] == [];
    }
    if b == [] {
      assert a + b == a;
    } else {
      TextsInTurn(a, b[..|b| - 1]);
      assert (a + b)[..|a + b| - 1] == a + b[..|b| - 1];
    }
  }

  lemma {:induction false} ConcatInTurn(a: seq<string>, b: seq<string>)
    ensures Concat(a + b) == Concat(a) + Concat(b)
    ensures |a| == 1 ==> Concat(a) == a[0]
    decreases |b|
  {
    if |a| == 1 {
      assert a[..0] == [];
      assert "" + a[0] == a[0];
    }
    if b == [] {
      assert a + b == a;
    } else {
      ConcatInTurn(a, b[..|b| - 1]);
      assert (a + b)[..|a + b| - 1] == a + b[..|b| - 1];
      Regroup(Concat(a), Concat(b[..|b| - 1]), b[|b| - 1]);
    }
  }

  lemma OneMoreMessage(msgs: seq<WireMessage>, m: WireMessage, valid: string -> bool)
    ensures Flat(msgs + [m], valid) == Flat(msgs, valid) + TagAll(RoleOf(m), BlocksOf(m, valid))
    ensures SystemTexts(msgs + [m]) == SystemTexts(msgs) + SystemOf(m)
  {
    assert (msgs + [m])[..|msgs|] == msgs;
  }

  // A conversation says its messages in turn, and its system prompt is the
  // texts of its system messages in turn.
  lemma {:induction false} MessagesInTurn(a: seq<WireMessage>, b: seq<WireMessage>, valid: string -> bool)
    ensures Flat(a + b, valid) == Flat(a, valid) + Flat(b, valid)
    ensures SystemTexts(a + b) == SystemTexts(a) + SystemTexts(b)
    decreases |b|
  {
    if b == [] {
      assert a + b == a;
    } else {
      var front, m := b[..|b| - 1], b[|b| - 1];
      MessagesInTurn(a, front, valid);
      Regroup(a, front, [m]);
      assert b == front + [m];
      OneMoreMessage(a + front, m, valid);
      OneMoreMessage(front, m, valid);
      Regroup(Flat(a, valid), Flat(front, valid), TagAll(RoleOf(m), BlocksOf(m, valid)));
      Regroup(SystemTexts(a), SystemTexts(front), SystemOf(m));
    }
  }

  lemma OneMessage(m: WireMessage, valid: string -> bool)
    ensures |Flat([m], valid)| == |BlocksOf(m, valid)|
    ensures forall i :: 0 <= i < |BlocksOf(m, valid)| ==>
      Flat([m], valid)[i] == Tagged(if m.role == Assistant then Assistant else User, BlocksOf(m, valid)[i])
    ensures SystemTexts([m]) ==
      if m.role == System || m.role == Developer then TextsOf(ContentBlocks(m.content)) else []
  {
    assert [m][..0] == [];
  }
}
