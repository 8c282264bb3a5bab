/**
 * The referee page (RefereeAnalytics.tsx): the total number of cards, the
 * strictest referee picked by sorting a copy in descending order of cards and
 * taking the first, the referee count and one card per referee with a badge.
 * The list arrives once, as records whose `total_cartoes` is an integer or
 * null (a referee without matches); null counts as 0 under `+`, `-` and `>`.
 */
module RefereeAnalytics {
  import opened Json
  import opened Js

  /** One record of /api/arbitros: the texts the card shows and the card count. */
  datatype Referee = Referee(nome: Option<Value>, nacionalidade: Option<Value>, jogos: Option<Value>, totalCartoes: Option<int>)

  /** The number `total_cartoes` stands for in arithmetic and comparisons: null is 0. */
  function CardsOf(r: Referee): int
  {
    if r.totalCartoes.None? then 0 else r.totalCartoes.value
  }

  /** `referees.reduce((acc, r) => acc + r.total_cartoes, 0)`. */
  function TotalCards(refs: seq<Referee>): int
  {
    Reduce(refs, CardsOf, 0)
  }

  /** The total is the sum of every referee's cards, and it adds up over a split list. */
  lemma TotalCardsIsSum(refs: seq<Referee>, more: seq<Referee>)
    ensures TotalCards(refs) == Sum(refs, CardsOf)
    ensures TotalCards(refs + more) == TotalCards(refs) + TotalCards(more)
  {
    ReduceIsSum(refs, CardsOf, 0);
    ReduceIsSum(more, CardsOf, 0);
    ReduceIsSum(refs + more, CardsOf, 0);
    SumAppend(refs, more, CardsOf);
  }

  /** Sorted by the comparator `b.total_cartoes - a.total_cartoes`: cards never increase along the list. */
  predicate Descending(s: seq<Referee>) {
    forall i, j :: 0 <= i < j < |s| ==> CardsOf(s[i]) >= CardsOf(s[j])
  }

  /** Puts `x` in front of the first element with no more cards than `x`: `x` precedes the equal elements that came after it. */
  function Insert(x: Referee, t: seq<Referee>): (r: seq<Referee>)
    ensures multiset(r) == multiset(t) + multiset{x}
    ensures |r| == |t| + 1
  {
    if t == [] || CardsOf(t[0]) <= CardsOf(x) then [x] + t
    else
      assert t == [t[0]] + t[1..];
      [t[0]] + Insert(x, t[1..])
  }

  /** The stable descending sort of a copy, as `[...referees].sort(…)` does. */
  function SortDesc(s: seq<Referee>): (r: seq<Referee>)
    ensures multiset(r) == multiset(s)
    ensures |r| == |s|
  {
    if s == [] then []
    else
      assert s == [s[0]] + s[1..];
      Insert(s[0], SortDesc(s[1..]))
  }

  lemma {:induction false} InsertKeepsDescending(x: Referee, t: seq<Referee>)
    requires Descending(t)
    ensures Descending(Insert(x, t))
    ensures Insert(x, t)[0] == if t == [] || CardsOf(t[0]) <= CardsOf(x) then x else t[0]
  {
    if t == [] || CardsOf(t[0]) <= CardsOf(x) {
    } else {
      InsertKeepsDescending(x, t[1..]);
      InsertBounded(x, t[1..], CardsOf(t[0]));
      ConsDescending(t[0], Insert(x, t[1..]));
    }
  }

  /** A head with at least as many cards as every element of a descending list keeps it descending. */
  lemma ConsDescending(h: Referee, rest: seq<Referee>)
    requires Descending(rest) && forall k :: 0 <= k < |rest| ==> CardsOf(rest[k]) <= CardsOf(h)
    ensures Descending([h] + rest)
  {
    var r := [h] + rest;
    forall i, j | 0 <= i < j < |r|
      ensures CardsOf(r[i]) >= CardsOf(r[j])
    {
      assert r[j] == rest[j - 1];
      if i > 0 {
        assert r[i] == rest[i - 1];
      }
    }
  }

  /** Inserting a referee with at most b cards into a list with at most b cards each keeps every count at most b. */
  lemma {:induction false} InsertBounded(x: Referee, t: seq<Referee>, b: int)
    requires CardsOf(x) <= b && forall k :: 0 <= k < |t| ==> CardsOf(t[k]) <= b
    ensures forall k :: 0 <= k < |Insert(x, t)| ==> CardsOf(Insert(x, t)[k]) <= b
  {
    if t != [] && CardsOf(t[0]) > CardsOf(x) {
      InsertBounded(x, t[1..], b);
      assert Insert(x, t) == [t[0]] + Insert(x, t[1..]);
    }
  }

  /** The sorted copy is descending and holds the same referees. */
  lemma {:induction false} SortDescSorts(s: seq<Referee>)
    ensures Descending(SortDesc(s)) && multiset(SortDesc(s)) == multiset(s)
  {
    if s != [] {
      SortDescSorts(s[1..]);
      InsertKeepsDescending(s[0], SortDesc(s[1..]));
    }
  }

  /** `sorted[0]`: None (`undefined`) for an empty list. */
  function MostStrict(refs: seq<Referee>): (m: Option<Referee>)
    ensures m.None? <==> refs == []
  {
    var sorted := SortDesc(refs);
    if |sorted| == 0 then None else Some(sorted[0])
  }

  /** `s[k]` has the most cards, and every referee before it has fewer. */
  predicate IsFirstMax(s: seq<Referee>, k: int) {
    0 <= k < |s|
    && (forall j :: 0 <= j < |s| ==> CardsOf(s[j]) <= CardsOf(s[k]))
    && (forall j :: 0 <= j < k ==> CardsOf(s[j]) < CardsOf(s[k]))
  }

  /**
   * The strictest referee has the most cards, and among referees with that
   * many it is the one that comes first in the list.
   */
  lemma {:induction false} MostStrictIsFirstMaximum(refs: seq<Referee>)
    requires refs != []
    ensures exists k :: IsFirstMax(refs, k) && MostStrict(refs) == Some(refs[k])
  {
    if |refs| == 1 {
      assert IsFirstMax(refs, 0);
    } else {
      var tail := refs[1..];
      MostStrictIsFirstMaximum(tail);
      var k' :| IsFirstMax(tail, k') && MostStrict(tail) == Some(tail[k']);
      var t := SortDesc(tail);
      assert MostStrict(refs) == Some(Insert(refs[0], t)[0]);
      assert t[0] == refs[k' + 1];
      FirstMaxStep(refs, k');
    }
  }

  /** The first maximum of a list, from the first maximum of its tail. */
  lemma FirstMaxStep(refs: seq<Referee>, k': int)
    requires |refs| > 1 && IsFirstMax(refs[1..], k')
    ensures CardsOf(refs[k' + 1]) <= CardsOf(refs[0]) ==> IsFirstMax(refs, 0)
    ensures CardsOf(refs[k' + 1]) > CardsOf(refs[0]) ==> IsFirstMax(refs, k' + 1)
  {
    assert forall j :: 1 <= j < |refs| ==> refs[j] == refs[1..][j - 1];
  }

  /** `mostStrict?.nome || '-'`. */
  function StrictName(refs: seq<Referee>): (name: Value)
    ensures refs == [] ==> name == Str("-")
  {
    match MostStrict(refs)
    case None => Str("-")
    case Some(r) => if TruthyOpt(r.nome) then r.nome.value else Str("-")
  }

  /** The badge variant: 'destructive' above 15 cards, 'secondary' otherwise. */
  function Badge(cards: int): (variant: string)
    ensures variant == "destructive" <==> cards > 15
    ensures variant == "secondary" <==> cards <= 15
  {
    if cards > 15 then "destructive" else "secondary"
  }

  /** A referee's card: the texts and the count as sent (null shows nothing), and the badge. */
  datatype RefereeCard = RefereeCard(nome: Option<Value>, nacionalidade: Option<Value>, jogos: Option<Value>, totalCartoes: Option<int>, badge: string)

  function CardFor(r: Referee): RefereeCard
  {
    RefereeCard(r.nome, r.nacionalidade, r.jogos, r.totalCartoes, Badge(CardsOf(r)))
  }

  /** The three summary cards (`strictCards` is None where nothing is printed) and the list of referee cards. */
  datatype AnalyticsView = AnalyticsView(total: int, strictName: Value, strictCards: Option<int>, count: nat, cards: seq<RefereeCard>)

  function View(refs: seq<Referee>): AnalyticsView
  {
    var m := MostStrict(refs);
    AnalyticsView(TotalCards(refs), StrictName(refs), if m.None? then None else m.value.totalCartoes,
                  |refs|, seq(|refs|, i requires 0 <= i < |refs| => CardFor(refs[i])))
  }

  /**
   * The page from a referee list: the count is the list's length, one card per
   * referee in list order with its badge, the strict card shows the maximum,
   * and an empty list shows '-' with no count of cards.
   */
  lemma ViewOfReferees(refs: seq<Referee>)
    ensures var v := View(refs);
      v.count == |refs| && |v.cards| == |refs| && v.total == Sum(refs, CardsOf)
      && (forall i :: 0 <= i < |refs| ==>
            v.cards[i].nome == refs[i].nome && v.cards[i].totalCartoes == refs[i].totalCartoes
            && (v.cards[i].badge == "destructive" <==> CardsOf(refs[i]) > 15))
      && (refs == [] ==> v.strictName == Str("-") && v.strictCards.None?)
      && (v.strictCards.Some? ==> forall j :: 0 <= j < |refs| ==> CardsOf(refs[j]) <= v.strictCards.value)
  {
    TotalCardsIsSum(refs, []);
    if refs != [] {
      MostStrictIsFirstMaximum(refs);
    }
  }

  /** Two referees tied on cards: the first in the list is the strictest. */
  lemma TieGoesToFirst(a: Referee, b: Referee)
    requires CardsOf(a) == CardsOf(b)
    ensures MostStrict([a, b]) == Some(a)
  {
    assert SortDesc([b]) == [b];
    assert [a, b][1..] == [b];
  }
}
