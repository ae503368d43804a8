/** The sidebar: the title search, the split of the conversation list into
    four age groups, and the guard of the "New chat" button of the collapsed
    sidebar. */
module Sidebar {
  import opened Common
  import opened ConversationCache
  import CreateConversation
  import ModelsRoute

  /** One day, in milliseconds. */
  const DAY_MS: int := 1000 * 60 * 60 * 24

  datatype Group = Today | Previous7 | Previous30 | Older

  /** The groups in the order the sidebar shows them. */
  const GROUP_ORDER: seq<Group> := [Today, Previous7, Previous30, Older]

  function Label(g: Group): string {
    match g
    case Today => "Today"
    case Previous7 => "Previous 7 Days"
    case Previous30 => "Previous 30 Days"
    case Older => "Older"
  }

  /** The group of a conversation created at `createdAt` (None: a date that
      does not parse, whose age is NaN and fails every comparison). The age
      in days is `(now - created) / DAY_MS`, so `age < n` is
      `now - created < n * DAY_MS`; a date in the future is younger than a
      day. */
  function GroupOf(now: int, createdAt: Option<int>): (g: Group)
    ensures createdAt.None? ==> g == Older
    ensures createdAt.Some? ==>
              var age := now - createdAt.value;
              (g == Today <==> age < DAY_MS) &&
              (g == Previous7 <==> DAY_MS <= age < 7 * DAY_MS) &&
              (g == Previous30 <==> 7 * DAY_MS <= age < 30 * DAY_MS) &&
              (g == Older <==> 30 * DAY_MS <= age)
  {
    if createdAt.None? then Older
    else
      var age := now - createdAt.value;
      if age < DAY_MS then Today
      else if age < 7 * DAY_MS then Previous7
      else if age < 30 * DAY_MS then Previous30
      else Older
  }

  /** The conversations of `convs` that fall in group `g`, in input order. */
  function InGroup(convs: seq<Conversation>, now: int, g: Group): (r: seq<Conversation>)
    ensures forall c :: c in r <==> c in convs && GroupOf(now, c.createdAt) == g
  {
    Filter(convs, (c: Conversation) => GroupOf(now, c.createdAt) == g)
  }

  /** Each group keeps the input order. */
  lemma GroupKeepsOrder(convs: seq<Conversation>, now: int, g: Group)
    ensures IsSubsequence(InGroup(convs, now, g), convs)
  {
    FilterIsSubsequence(convs, (c: Conversation) => GroupOf(now, c.createdAt) == g);
  }

  datatype LabelledGroup = LabelledGroup(title: string, items: seq<Conversation>)

  /** `groupConversations`: one pass over the list pushing each conversation
      onto the array of its group; the four groups come back labelled, in
      fixed order, each keeping the input order. */
  method GroupConversations(convs: seq<Conversation>, now: int) returns (groups: seq<LabelledGroup>)
    ensures |groups| == 4
    ensures forall k :: 0 <= k < 4 ==>
              groups[k] == LabelledGroup(Label(GROUP_ORDER[k]), InGroup(convs, now, GROUP_ORDER[k]))
  {
    var today: seq<Conversation> := [];
    var prev7: seq<Conversation> := [];
    var prev30: seq<Conversation> := [];
    var older: seq<Conversation> := [];
    var i := 0;
    while i < |convs|
      invariant 0 <= i <= |convs|
      invariant today == InGroup(convs[..i], now, Today)
      invariant prev7 == InGroup(convs[..i], now, Previous7)
      invariant prev30 == InGroup(convs[..i], now, Previous30)
      invariant older == InGroup(convs[..i], now, Older)
      decreases |convs| - i
    {
      var conv := convs[i];
      var g := GroupOf(now, conv.createdAt);
      assert convs[..i + 1] == convs[..i] + [conv];
      InGroupSnoc(convs[..i], conv, now, Today);
      InGroupSnoc(convs[..i], conv, now, Previous7);
      InGroupSnoc(convs[..i], conv, now, Previous30);
      InGroupSnoc(convs[..i], conv, now, Older);
      if g == Today {
        today := today + [conv];
      } else if g == Previous7 {
        prev7 := prev7 + [conv];
      } else if g == Previous30 {
        prev30 := prev30 + [conv];
      } else {
        older := older + [conv];
      }
      i := i + 1;
    }
    assert convs[..i] == convs;
    groups := [
      LabelledGroup(Label(Today), today),
      LabelledGroup(Label(Previous7), prev7),
      LabelledGroup(Label(Previous30), prev30),
      LabelledGroup(Label(Older), older)
    ];
  }

  /** One more conversation at the end joins exactly its own group. */
  lemma InGroupSnoc(convs: seq<Conversation>, conv: Conversation, now: int, g: Group)
    ensures InGroup(convs + [conv], now, g) ==
            InGroup(convs, now, g) + (if GroupOf(now, conv.createdAt) == g then [conv] else [])
  {
    FilterSnoc(convs, conv, (c: Conversation) => GroupOf(now, c.createdAt) == g);
  }

  /** The four groups partition the list: their sizes add up to its
      length. */
  lemma {:induction false} GroupsPartition(convs: seq<Conversation>, now: int)
    ensures |InGroup(convs, now, Today)| + |InGroup(convs, now, Previous7)| +
            |InGroup(convs, now, Previous30)| + |InGroup(convs, now, Older)| == |convs|
  {
    if convs != [] {
      var init := convs[..|convs| - 1];
      var last := convs[|convs| - 1];
      assert convs == init + [last];
      GroupsPartition(init, now);
      InGroupSnoc(init, last, now, Today);
      InGroupSnoc(init, last, now, Previous7);
      InGroupSnoc(init, last, now, Previous30);
      InGroupSnoc(init, last, now, Older);
    }
  }

  /** Every listed conversation is in exactly one group. */
  lemma EveryConversationInOneGroup(convs: seq<Conversation>, now: int, c: Conversation)
    requires c in convs
    ensures exists k :: 0 <= k < 4 && c in InGroup(convs, now, GROUP_ORDER[k])
    ensures forall k, j ::
              0 <= k < 4 && 0 <= j < 4 && c in InGroup(convs, now, GROUP_ORDER[k]) && c in InGroup(convs, now, GROUP_ORDER[j])
              ==> k == j
  {
    var g := GroupOf(now, c.createdAt);
    var k := match g case Today => 0 case Previous7 => 1 case Previous30 => 2 case Older => 3;
    assert GROUP_ORDER[k] == g;
  }

  /** The title search: `c.title.toLowerCase().includes(search.toLowerCase())`. */
  function Search(convs: seq<Conversation>, query: string): (r: seq<Conversation>)
    ensures forall c :: c in r <==> c in convs && Contains(ToLower(c.title), ToLower(query))
    ensures IsSubsequence(r, convs)
  {
    var keep := (c: Conversation) => Contains(ToLower(c.title), ToLower(query));
    FilterIsSubsequence(convs, keep);
    Filter(convs, keep)
  }

  /** An empty search keeps every conversation, in order. */
  lemma EmptySearchKeepsAll(convs: seq<Conversation>)
    ensures Search(convs, "") == convs
  {
    FilterAll(convs, (c: Conversation) => Contains(ToLower(c.title), ToLower("")));
  }

  /** The search ignores letter case on both sides. */
  lemma SearchIgnoresCase(convs: seq<Conversation>, query: string)
    ensures Search(convs, ToLower(query)) == Search(convs, query)
  {
    assert ToLower(ToLower(query)) == ToLower(query);
  }

  /** `models?.[0]?.name`: the first model's name, once a list has loaded. */
  function DefaultModel(models: Option<seq<ModelsRoute.ModelInfo>>): (r: Option<string>)
    ensures r.Some? <==> models.Some? && |models.value| > 0
    ensures r.Some? ==> r.value == models.value[0].name
  {
    if models.Some? && |models.value| > 0 then Some(models.value[0].name) else None
  }

  /** The collapsed sidebar's "New chat" button: a creation is started only
      for a signed-in user while none is pending, with the default model or
      the empty string. */
  function NewChat(userId: Option<string>, isPending: bool, defaultModel: Option<string>)
    : (r: Option<CreateConversation.CreateInput>)
    ensures r.Some? <==> userId.Some? && userId.value != "" && !isPending
    ensures r.Some? ==> r.value.userId == userId.value && r.value.title.None?
    ensures r.Some? && defaultModel.Some? ==> r.value.model == defaultModel.value
    ensures r.Some? && defaultModel.None? ==> r.value.model == ""
  {
    if userId.Some? && userId.value != "" && !isPending then
      Some(CreateConversation.CreateInput(userId.value, if defaultModel.Some? then defaultModel.value else "", None))
    else None
  }
}
