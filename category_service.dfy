// Problem categories of the calculation service (calculate-service
// app/category_service.py): which categories are allowed, which one is
// primary, and the hero cards the home page shows for them. The configured
// list and the problem bank's categories are parameters.
module CategoryService {
  import opened Wrappers
  import Text

  /** An element of a category list: a string, or any other value the
    * isinstance check turns away. */
  datatype Item = Str(s: string) | NonStr

  /** A string str.strip() empties. */
  predicate Blank(s: string) {
    forall i :: 0 <= i < |s| ==> Text.IsSpace(s[i])
  }

  /** strip() leaves nothing exactly of an all-whitespace string. */
  lemma StripBlank(s: string)
    ensures Text.Strip(s) == "" <==> Blank(s)
  {
  }

  /** isinstance(item, str) and item.strip(). */
  predicate IsLabel(item: Item) {
    item.Str? && !Blank(item.s)
  }

  // ---- resolve_allowed_categories ------------------------------------------

  /** The configured list filtered to non-blank strings, unstripped. */
  function Normalized(items: seq<Item>): (r: seq<string>)
    ensures |r| <= |items|
    ensures forall k :: 0 <= k < |r| ==> IsLabel(Str(r[k]))
  {
    if |items| == 0 then []
    else
      var front := Normalized(items[..|items| - 1]);
      if IsLabel(items[|items| - 1]) then front + [items[|items| - 1].s] else front
  }

  /** A string survives the filter iff it is one of the items and not blank;
    * the filter is empty iff no item is a label. */
  lemma {:induction false} NormalizedMembers(items: seq<Item>, l: string)
    ensures l in Normalized(items) <==> Str(l) in items && !Blank(l)
    ensures Normalized(items) == [] <==> forall k :: 0 <= k < |items| ==> !IsLabel(items[k])
  {
    if |items| > 0 {
      var front := items[..|items| - 1];
      NormalizedMembers(front, l);
      assert items == front + [items[|items| - 1]];
      if Normalized(items) == [] {
        assert Normalized(front) == [] && !IsLabel(items[|items| - 1]);
        forall k | 0 <= k < |items|
          ensures !IsLabel(items[k])
        {
          if k < |front| {
            assert items[k] == front[k];
          }
        }
      }
    }
  }

  /** resolve_allowed_categories: the configured labels when there is at
    * least one, otherwise every category of the problem bank. A missing
    * setting reads as an empty list. */
  function AllowedCategories(configured: Option<seq<Item>>, bank: seq<string>): (r: seq<string>)
    ensures configured.None? ==> r == bank
    ensures r == bank || (|r| > 0 && forall k :: 0 <= k < |r| ==> IsLabel(Str(r[k])))
  {
    var items := if configured.Some? then configured.value else [];
    var normalized := Normalized(items);
    if |normalized| > 0 then normalized else bank
  }

  /** Configured labels take precedence over the bank; with none configured
    * the bank's list is used as it is. */
  lemma AllowedCategoriesPrecedence(configured: Option<seq<Item>>, bank: seq<string>)
    ensures configured.Some? && (exists k :: 0 <= k < |configured.value| && IsLabel(configured.value[k])) ==>
      AllowedCategories(configured, bank) == Normalized(configured.value) &&
      forall c :: c in AllowedCategories(configured, bank) ==> Str(c) in configured.value && !Blank(c)
    ensures (configured.None? || forall k :: 0 <= k < |configured.value| ==> !IsLabel(configured.value[k])) ==>
      AllowedCategories(configured, bank) == bank
  {
    if configured.Some? {
      NormalizedMembers(configured.value, "");
      forall c | c in Normalized(configured.value)
        ensures Str(c) in configured.value && !Blank(c)
      {
        NormalizedMembers(configured.value, c);
      }
    }
  }

  // ---- resolve_primary_category --------------------------------------------

  /** The index of the first label, |items| when there is none. */
  function FirstLabel(items: seq<Item>): (k: nat)
    ensures k <= |items|
    ensures k < |items| ==> IsLabel(items[k])
    ensures forall j :: 0 <= j < k ==> !IsLabel(items[j])
    decreases |items|
  {
    if |items| == 0 then 0
    else if IsLabel(items[0]) then 0
    else
      var k := 1 + FirstLabel(items[1..]);
      assert forall j :: 1 <= j < |items| ==> items[j] == items[1..][j - 1];
      k
  }

  /** The scan of resolve_primary_category: the first label as given
    * (unstripped), None when no item is a label. */
  function PrimaryCategory(items: seq<Item>): (r: Option<string>)
    ensures r.Some? <==> exists k :: 0 <= k < |items| && IsLabel(items[k])
    ensures r.Some? ==> !Blank(r.value) && Str(r.value) in items
  {
    var k := FirstLabel(items);
    if k < |items| then Some(items[k].s) else None
  }

  function AsItems(categories: seq<string>): (r: seq<Item>)
    ensures |r| == |categories| && forall k :: 0 <= k < |r| ==> r[k] == Str(categories[k])
  {
    seq(|categories|, k requires 0 <= k < |categories| => Str(categories[k]))
  }

  /** resolve_primary_category: without an argument, the allowed categories
    * are scanned. */
  function ResolvePrimaryCategory(categories: Option<seq<Item>>, configured: Option<seq<Item>>,
                                  bank: seq<string>): (r: Option<string>)
    ensures categories.Some? ==> (r.Some? <==> exists k :: 0 <= k < |categories.value| && IsLabel(categories.value[k]))
    ensures categories.Some? && r.Some? ==> Str(r.value) in categories.value
    ensures r.Some? ==> !Blank(r.value)
  {
    if categories.Some? then PrimaryCategory(categories.value)
    else PrimaryCategory(AsItems(AllowedCategories(configured, bank)))
  }

  /** Without an argument and with labels configured, the primary category
    * is the first configured label. */
  lemma {:induction false} PrimaryIsFirstConfigured(configured: seq<Item>, bank: seq<string>)
    requires exists k :: 0 <= k < |configured| && IsLabel(configured[k])
    ensures ResolvePrimaryCategory(None, Some(configured), bank) == Some(configured[FirstLabel(configured)].s)
  {
    var n := Normalized(configured);
    NormalizedMembers(configured, "");
    assert n != [];
    NormalizedFirst(configured);
    assert AllowedCategories(Some(configured), bank) == n;
    assert IsLabel(AsItems(n)[0]);
    assert FirstLabel(AsItems(n)) == 0;
  }

  /** The filter of a concatenation is the concatenation of the filters. */
  lemma {:induction false} NormalizedAppend(a: seq<Item>, b: seq<Item>)
    ensures Normalized(a + b) == Normalized(a) + Normalized(b)
  {
    if |b| == 0 {
      assert a + b == a;
    } else {
      var front := b[..|b| - 1];
      assert (a + b)[..|a + b| - 1] == a + front;
      NormalizedAppend(a, front);
    }
  }

  /** The filter's first element is the first label. */
  lemma {:induction false} NormalizedFirst(items: seq<Item>)
    requires FirstLabel(items) < |items|
    ensures |Normalized(items)| > 0 && Normalized(items)[0] == items[FirstLabel(items)].s
  {
    var k := FirstLabel(items);
    var x := items[k];
    var before, rest := items[..k], items[k + 1..];
    assert items[k..] == [x] + rest;
    assert items == before + items[k..];
    assert before + [x] + rest == items;
    assert forall j :: 0 <= j < |before| ==> !IsLabel(before[j]) by {
      assert forall j :: 0 <= j < |before| ==> before[j] == items[j];
    }
    NormalizedMembers(before, "");
    assert Normalized([x]) == [x.s] by {
      assert [x][..0] == [];
    }
    NormalizedAppend(before, [x]);
    assert Normalized(before + [x]) == [x.s];
    NormalizedAppend(before + [x], rest);
  }

  // ---- build_category_cards ------------------------------------------------

  /** One hero card. */
  datatype Card = Card(emoji: string, title: string, description: string, href: string, accent: string, cta: string)

  /** The four accent classes the cards cycle through. */
  const Accents: seq<string> := [
    "from-sky-400/30 to-sky-500/20",
    "from-emerald-400/30 to-emerald-500/20",
    "from-purple-400/30 to-purple-500/20",
    "from-orange-400/30 to-orange-500/20"
  ]

  /** The icons of the four known categories. */
  const Icons: map<string, string> := map[
    "덧셈" := "➕",
    "뺄셈" := "➖",
    "곱셈" := "✖️",
    "나눗셈" := "➗"
  ]

  /** The descriptions of the four known categories. */
  const Descriptions: map<string, string> := map[
    "덧셈" := "두 자리 수 덧셈으로 기본 연산 감각을 다듬어요.",
    "뺄셈" := "받아내림·올림 개념을 시각적으로 연습합니다.",
    "곱셈" := "구구단과 배열 모델로 곱셈 패턴을 익혀보세요.",
    "나눗셈" := "나눗셈을 등분·몫 관점으로 이해하도록 지도합니다."
  ]

  /** The two lookup tables of the cards; the service uses Icons and
    * Descriptions. */
  datatype Tables = Tables(icons: map<string, string>, descriptions: map<string, string>)

  const SourceTables := Tables(Icons, Descriptions)

  /** _ICON_MAP.get(name, book icon). */
  function IconOf(name: string, tables: Tables): string {
    if name in tables.icons then tables.icons[name] else "📘"
  }

  /** _DESCRIPTION_MAP.get(name, generated description). */
  function DescriptionOf(name: string, tables: Tables): string {
    if name in tables.descriptions then tables.descriptions[name] else name + " 문제 세트를 연습해보세요."
  }

  /** The card dict for a stripped label and the accent drawn for it. */
  function CardWith(name: string, accent: string, tables: Tables): Card {
    Card(IconOf(name, tables), name, DescriptionOf(name, tables), "/problems?category=" + name, accent,
         name + " 문제 풀기")
  }

  /** The card of the k-th shown category. */
  function CardFor(name: string, k: nat, tables: Tables): Card {
    CardWith(name, Accents[k % 4], tables)
  }

  /** The stripped labels, in input order. */
  function Labels(items: seq<Item>): (r: seq<string>)
    ensures forall k :: 0 <= k < |r| ==> r[k] != ""
  {
    if |items| == 0 then []
    else
      var front := Labels(items[..|items| - 1]);
      var item := items[|items| - 1];
      if IsLabel(item) then
        StripBlank(item.s);
        front + [Text.Strip(item.s)]
      else front
  }

  /** The shown names are exactly the allowed labels, stripped. */
  lemma {:induction false} LabelsAreStrippedNormalized(items: seq<Item>)
    ensures |Labels(items)| == |Normalized(items)|
    ensures forall k :: 0 <= k < |Labels(items)| ==> Labels(items)[k] == Text.Strip(Normalized(items)[k])
  {
    if |items| > 0 {
      var front, last := items[..|items| - 1], items[|items| - 1];
      LabelsAreStrippedNormalized(front);
      var labels, names := Labels(front), Normalized(front);
      if IsLabel(last) {
        assert Labels(items) == labels + [Text.Strip(last.s)];
        assert Normalized(items) == names + [last.s];
      } else {
        assert Labels(items) == labels && Normalized(items) == names;
      }
    }
  }

  /** The cards for the shown names, the k-th with the k-th accent. */
  function CardsFor(names: seq<string>, tables: Tables): (r: seq<Card>)
    ensures |r| == |names|
  {
    seq(|names|, k requires 0 <= k < |names| => CardFor(names[k], k, tables))
  }

  lemma CardsForSnoc(names: seq<string>, name: string, tables: Tables)
    ensures CardsFor(names + [name], tables) == CardsFor(names, tables) + [CardWith(name, Accents[|names| % 4], tables)]
  {
  }

  /** Advancing the cycle of four. */
  lemma NextAccent(n: nat)
    ensures (n + 1) % 4 == if n % 4 == 3 then 0 else n % 4 + 1
  {
  }

  lemma LabelsStep(items: seq<Item>, i: nat)
    requires i < |items|
    ensures Labels(items[..i + 1]) ==
            if IsLabel(items[i]) then Labels(items[..i]) + [Text.Strip(items[i].s)] else Labels(items[..i])
  {
    assert items[..i + 1][..i] == items[..i];
  }

  /** build_category_cards: one card per label in input order; the accent
    * cycle advances only on an emitted card. */
  method BuildCategoryCards(categories: seq<Item>, tables: Tables) returns (cards: seq<Card>)
    ensures cards == CardsFor(Labels(categories), tables)
  {
    cards := [];
    var accent := 0;
    var i := 0;
    while i < |categories|
      invariant 0 <= i <= |categories|
      invariant accent == |cards| % 4
      invariant cards == CardsFor(Labels(categories[..i]), tables)
    {
      LabelsStep(categories, i);
      if IsLabel(categories[i]) {
        CardsForSnoc(Labels(categories[..i]), Text.Strip(categories[i].s), tables);
      }
      cards, accent := AddCard(cards, accent, categories[i], tables);
      i := i + 1;
    }
    assert categories[..|categories|] == categories;
  }

  /** One turn of the loop: a label adds its card with the next accent. */
  method AddCard(cards: seq<Card>, accent: nat, item: Item, tables: Tables) returns (cards': seq<Card>, accent': nat)
    requires accent == |cards| % 4
    ensures accent' == |cards'| % 4
    ensures !IsLabel(item) ==> cards' == cards
    ensures IsLabel(item) ==> cards' == cards + [CardWith(Text.Strip(item.s), Accents[|cards| % 4], tables)]
  {
    cards', accent' := cards, accent;
    if item.Str? {
      var name := Text.Strip(item.s);
      StripBlank(item.s);
      if name != "" {
        var card := CardWith(name, Accents[accent], tables);
        cards' := cards + [card];
        NextAccent(|cards|);
        accent' := if accent == 3 then 0 else accent + 1;
        assert |cards'| == |cards| + 1;
      }
    }
  }

  /** The cards of a list: as many as it has labels, the k-th titled with
    * the k-th label stripped and drawn with the accent k mod 4. */
  lemma {:induction false} CardsOfLabels(categories: seq<Item>, tables: Tables)
    ensures |CardsFor(Labels(categories), tables)| == |Normalized(categories)|
    ensures forall k :: 0 <= k < |Normalized(categories)| ==>
      CardsFor(Labels(categories), tables)[k].title == Text.Strip(Normalized(categories)[k]) &&
      CardsFor(Labels(categories), tables)[k].accent == Accents[k % 4]
  {
    var names := Labels(categories);
    var cards := CardsFor(names, tables);
    LabelsAreStrippedNormalized(categories);
    forall k | 0 <= k < |cards|
      ensures cards[k].title == names[k] && cards[k].accent == Accents[k % 4]
    {
      assert cards[k] == CardFor(names[k], k, tables);
    }
  }

  /** Every card links to its category's problems and names it in its call
    * to action; a category without an icon or description of its own gets
    * the book icon and a generated description; cards four apart share an
    * accent. */
  lemma CardFields(name: string, k: nat)
    ensures var c := CardFor(name, k, SourceTables);
      c.title == name && c.href == "/problems?category=" + name && c.cta == name + " 문제 풀기"
    ensures name !in Icons ==> CardFor(name, k, SourceTables).emoji == "📘"
    ensures name !in Descriptions ==>
      CardFor(name, k, SourceTables).description == name + " 문제 세트를 연습해보세요."
    ensures name == "덧셈" ==> CardFor(name, k, SourceTables).emoji == "➕"
    ensures CardFor(name, k + 4, SourceTables).accent == CardFor(name, k, SourceTables).accent
  {
  }
}
