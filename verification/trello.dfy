/**
 * The Trello side of the progress report: the query parameters of every
 * request, the enrichment of the board's cards with the name of their list
 * and their comments, and the two agent tools built on it.
 *
 * The three HTTP calls of the client are inputs: the board listing is a
 * result, the comment fetch a partial function of the card id, and the
 * list-name fetch a partial function of the list id and of the number of
 * list lookups already made in the same enrichment, so that answers may
 * differ from one call to the next.
 */
module Trello {
  import opened Wrappers
  import opened PyText
  import opened JsonValue

  // ------------------------------------------------------------------ client

  datatype TrelloConfig = TrelloConfig(apiKey: string, apiToken: string, boardId: string, baseUrl: string)

  /** The extra query parameters that are merged in: none when absent or empty (`if extra:`). */
  function ExtraEntries(extra: Option<map<string, Json>>): map<string, Json> {
    extra.GetOr(map[])
  }

  /**
   * `TrelloClient._params`: the credentials as `key` and `token`, updated in
   * place with the extra parameters.
   */
  method Params(cfg: TrelloConfig, extra: Option<map<string, Json>>) returns (base: map<string, Json>)
    ensures base.Keys == {"key", "token"} + ExtraEntries(extra).Keys
    ensures forall k :: k in ExtraEntries(extra) ==> base[k] == ExtraEntries(extra)[k]
    ensures "key" !in ExtraEntries(extra) ==> base["key"] == JStr(cfg.apiKey)
    ensures "token" !in ExtraEntries(extra) ==> base["token"] == JStr(cfg.apiToken)
  {
    base := map["key" := JStr(cfg.apiKey), "token" := JStr(cfg.apiToken)];
    if extra.Some? && extra.value != map[] {
      base := base + extra.value;
    }
  }

  /** A label of a card; either field may be missing. */
  datatype Label = Label(name: Option<string>, color: Option<string>)

  datatype Member = Member(fullName: Option<string>)

  datatype ActionData = ActionData(text: Option<string>)

  /** An action of a card as the actions endpoint returns it (`type` is `kind`). */
  datatype Action = Action(kind: Option<string>, date: Option<string>, memberCreator: Option<Member>, data: Option<ActionData>)

  /** A card of the board listing; `None` is a missing key. */
  datatype Card = Card(
    id: Option<string>,
    name: Option<string>,
    idList: Option<string>,
    due: Option<string>,
    dateLastActivity: Option<string>,
    labels: Option<seq<Label>>,
    shortUrl: Option<string>)

  /** The body of the list endpoint's answer. */
  datatype ListBody = ListBody(name: Option<string>)

  datatype TrelloClient = TrelloClient(
    cfg: TrelloConfig,
    // `get_cards_basic`: the cards of the board, or the text of the error raised
    cards: Result<seq<Card>, string>,
    // `get_list_name`'s answer to the lookup of a list id made after n others, or None when it raises
    listLookup: (string, nat) -> Option<ListBody>,
    // `get_card_comments`: the actions of a card, or None when the call raises
    cardActions: string -> Option<seq<Action>>)

  // ----------------------------------------------------------------- records

  datatype Comment = Comment(date: Option<string>, member: Option<string>, text: string)

  /** The record emitted for one card. */
  datatype Enriched = Enriched(
    id: Option<string>,
    name: Option<string>,
    listName: string,
    due: Option<string>,
    lastActivity: Option<string>,
    labels: seq<Option<string>>,
    shortUrl: Option<string>,
    comments: seq<Comment>)

  /** `lbl.get("name") or lbl.get("color")`. */
  function LabelText(l: Label): (r: Option<string>)
    ensures l.name.Some? && l.name.value != "" ==> r == l.name
    ensures l.name.None? || l.name == Some("") ==> r == l.color
  {
    if l.name.Some? && l.name.value != "" then l.name else l.color
  }

  /** The labels of a card, `[]` when missing. */
  function LabelTexts(labels: Option<seq<Label>>): (r: seq<Option<string>>)
    ensures labels.None? ==> r == []
    ensures labels.Some? ==> |r| == |labels.value|
    ensures labels.Some? ==> forall i :: 0 <= i < |r| ==> r[i] == LabelText(labels.value[i])
  {
    var ls := labels.GetOr([]);
    seq(|ls|, i requires 0 <= i < |ls| => LabelText(ls[i]))
  }

  predicate IsCommentCard(a: Action) {
    a.kind == Some("commentCard")
  }

  /** The comment record of a `commentCard` action: its date, its author's full name and its stripped text. */
  function ToComment(a: Action): (c: Comment)
    ensures c.date == a.date
    ensures a.memberCreator.None? ==> c.member.None?
    ensures a.memberCreator.Some? ==> c.member == a.memberCreator.value.fullName
    ensures a.data.Some? && a.data.value.text.Some? ==> c.text == Strip(a.data.value.text.value)
    ensures a.data.None? || a.data.value.text.None? ==> c.text == ""
  {
    Comment(
      a.date,
      if a.memberCreator.Some? then a.memberCreator.value.fullName else None,
      Strip(if a.data.Some? then a.data.value.text.GetOr("") else ""))
  }

  /** The comments kept from a card's actions: its `commentCard` actions, in order. */
  function CommentsOf(actions: seq<Action>): (r: seq<Comment>)
    ensures |r| <= |actions|
    ensures forall k :: 0 <= k < |r| && r[k].text != [] ==>
      !IsSpace(r[k].text[0]) && !IsSpace(r[k].text[|r[k].text| - 1])
  {
    if actions == [] then []
    else
      var last := actions[|actions| - 1];
      CommentsOf(actions[..|actions| - 1]) + (if IsCommentCard(last) then [ToComment(last)] else [])
  }

  /** Keeping comments commutes with concatenation, so the kept comments stay in their original order. */
  lemma {:induction false} CommentsOfAppend(a: seq<Action>, b: seq<Action>)
    ensures CommentsOf(a + b) == CommentsOf(a) + CommentsOf(b)
    decreases |b|
  {
    if b == [] {
      assert a + b == a;
    } else {
      assert (a + b)[..|a + b| - 1] == a + b[..|b| - 1];
      CommentsOfAppend(a, b[..|b| - 1]);
    }
  }

  /** One action gives one comment when it is a `commentCard`, and none otherwise. */
  lemma CommentsOfOne(a: Action)
    ensures CommentsOf([a]) == if IsCommentCard(a) then [ToComment(a)] else []
  {
    assert [a][..0] == [];
  }

  /** Actions of other types never give a comment. */
  lemma {:induction false} NoCommentActionNoComment(actions: seq<Action>)
    requires forall j :: 0 <= j < |actions| ==> !IsCommentCard(actions[j])
    ensures CommentsOf(actions) == []
  {
    if actions != [] {
      NoCommentActionNoComment(actions[..|actions| - 1]);
    }
  }

  /** The inner loop over a card's actions. */
  method CollectComments(actions: seq<Action>) returns (comments: seq<Comment>)
    ensures comments == CommentsOf(actions)
  {
    comments := [];
    for j := 0 to |actions|
      invariant comments == CommentsOf(actions[..j])
    {
      var a := actions[j];
      if a.kind == Some("commentCard") {
        comments := comments + [ToComment(a)];
      }
      assert actions[..j + 1][..j] == actions[..j];
    }
    assert actions[..|actions|] == actions;
  }

  /** The comments of a card: none when it has no id or when the fetch fails. */
  function CardComments(client: TrelloClient, c: Card): (r: seq<Comment>)
    ensures c.id.None? ==> r == []
    ensures c.id.Some? && client.cardActions(c.id.value).None? ==> r == []
    ensures c.id.Some? && client.cardActions(c.id.value).Some? ==> r == CommentsOf(client.cardActions(c.id.value).value)
  {
    if c.id.None? then []
    else
      match client.cardActions(c.id.value)
      case None => []
      case Some(actions) => CommentsOf(actions)
  }

  // -------------------------------------------------------- list-name lookups

  /** `c.get("idList", "")`: the key of the list-name cache. */
  function ListKey(c: Card): string {
    c.idList.GetOr("")
  }

  /** The cache keys of the cards, in order. */
  function ListKeys(cards: seq<Card>): (keys: seq<string>)
    ensures |keys| == |cards|
    ensures forall i :: 0 <= i < |cards| ==> keys[i] == ListKey(cards[i])
  {
    if cards == [] then [] else ListKeys(cards[..|cards| - 1]) + [ListKey(cards[|cards| - 1])]
  }

  /** The distinct keys of `keys`, in order of first occurrence. */
  function DistinctKeys<K(==,!new)>(keys: seq<K>): (d: seq<K>)
    ensures forall k :: k in d <==> k in keys
    ensures forall a, b :: 0 <= a < b < |d| ==> d[a] != d[b]
    ensures |d| <= |keys|
  {
    if keys == [] then []
    else
      var d := DistinctKeys(keys[..|keys| - 1]);
      assert keys == keys[..|keys| - 1] + [keys[|keys| - 1]];
      if keys[|keys| - 1] in d then d else d + [keys[|keys| - 1]]
  }

  /** Position of the first occurrence of `k`. */
  function FirstIndex<K(==)>(keys: seq<K>, k: K): (i: nat)
    requires k in keys
    ensures i < |keys| && keys[i] == k && k !in keys[..i]
  {
    if keys[0] == k then 0
    else
      var j := FirstIndex(keys[1..], k);
      assert keys[..j + 1] == [keys[0]] + keys[1..][..j];
      j + 1
  }

  lemma FirstIndexAt<K(!new)>(keys: seq<K>, i: nat)
    requires i < |keys| && keys[i] !in keys[..i]
    ensures FirstIndex(keys, keys[i]) == i
  {
  }

  /** The number of the lookup made for `k`: its position in the log of lookups. */
  function ListRank<K(==,!new)>(keys: seq<K>, k: K): nat
    requires k in keys
  {
    FirstIndex(DistinctKeys(keys), k)
  }

  /** `get_list_name` after the client's answer: the key itself when the call fails or the body has no name. */
  function ResolveName(listId: string, body: Option<ListBody>): string {
    match body
    case None => listId
    case Some(b) => b.name.GetOr(listId)
  }

  /** A failed lookup, or an answer without a name, names the list by its id; otherwise the answer's name is used. */
  lemma ResolveNameFallsBack(listId: string, body: Option<ListBody>)
    ensures body.None? ==> ResolveName(listId, body) == listId
    ensures body.Some? && body.value.name.None? ==> ResolveName(listId, body) == listId
    ensures body.Some? && body.value.name.Some? ==> ResolveName(listId, body) == body.value.name.value
  {
  }

  /** The list name every card with list key `k` receives: the answer to the one lookup made for `k`. */
  function ListNameFor(client: TrelloClient, keys: seq<string>, k: string): string
    requires k in keys
  {
    ResolveName(k, client.listLookup(k, ListRank(keys, k)))
  }

  /** The distinct keys of a prefix are a prefix of the distinct keys. */
  lemma {:induction false} DistinctKeysPrefix<K(!new)>(keys: seq<K>, i: nat)
    requires i <= |keys|
    ensures |DistinctKeys(keys[..i])| <= |DistinctKeys(keys)|
    ensures DistinctKeys(keys[..i]) == DistinctKeys(keys)[..|DistinctKeys(keys[..i])|]
    decreases |keys| - i
  {
    if i == |keys| {
      assert keys[..i] == keys;
    } else {
      var init := keys[..|keys| - 1];
      assert init[..i] == keys[..i];
      DistinctKeysPrefix(init, i);
    }
  }

  /** Adding one key to the keys adds it to the distinct keys unless it was met before. */
  lemma DistinctKeysStep<K(!new)>(keys: seq<K>, i: nat)
    requires i < |keys|
    ensures DistinctKeys(keys[..i + 1]) ==
      if keys[i] in DistinctKeys(keys[..i]) then DistinctKeys(keys[..i]) else DistinctKeys(keys[..i]) + [keys[i]]
  {
    assert keys[..i + 1][..i] == keys[..i];
  }

  /** In a sequence without repetitions, the first occurrence of an element is its only one. */
  lemma FirstIndexOfDistinct<K(!new)>(d: seq<K>, p: nat)
    requires p < |d|
    requires forall a, b :: 0 <= a < b < |d| ==> d[a] != d[b]
    ensures FirstIndex(d, d[p]) == p
  {
    FirstIndexAt(d, p);
  }

  /** The first card with a key `k` adds `k` to the log, right after the keys met before it. */
  lemma LoggedAtFirstOccurrence<K(!new)>(keys: seq<K>, f: nat)
    requires f < |keys| && keys[f] !in keys[..f]
    ensures |DistinctKeys(keys[..f])| < |DistinctKeys(keys)|
    ensures DistinctKeys(keys)[|DistinctKeys(keys[..f])|] == keys[f]
  {
    DistinctKeysStep(keys, f);
    DistinctKeysPrefix(keys, f + 1);
    var d, p := DistinctKeys(keys), |DistinctKeys(keys[..f])|;
    assert d[p] == d[..p + 1][p];
  }

  /** The lookup for `k` comes after one lookup for each distinct key met before the first card with key `k`. */
  lemma RankCountsEarlierKeys<K(!new)>(keys: seq<K>, k: K)
    requires k in keys
    ensures ListRank(keys, k) == |DistinctKeys(keys[..FirstIndex(keys, k)])|
  {
    var f := FirstIndex(keys, k);
    LoggedAtFirstOccurrence(keys, f);
    FirstIndexOfDistinct(DistinctKeys(keys), |DistinctKeys(keys[..f])|);
  }

  /** A key met for the first time at card `i` gets the lookup numbered by the distinct keys before it. */
  lemma NewKeyRank<K(!new)>(keys: seq<K>, i: nat)
    requires i < |keys| && keys[i] !in keys[..i]
    ensures ListRank(keys, keys[i]) == |DistinctKeys(keys[..i])|
  {
    FirstIndexAt(keys, i);
    RankCountsEarlierKeys(keys, keys[i]);
  }

  // ---------------------------------------------------------------- enrichment

  /** The record of card `i`: copied fields, the cached list name, the normalised labels and the comments. */
  function EnrichedCard(client: TrelloClient, cards: seq<Card>, i: nat): Enriched
    requires i < |cards|
  {
    var c := cards[i];
    assert ListKeys(cards)[i] == ListKey(c);
    Enriched(
      c.id, c.name, ListNameFor(client, ListKeys(cards), ListKey(c)), c.due, c.dateLastActivity,
      LabelTexts(c.labels), c.shortUrl, CardComments(client, c))
  }

  /** The records of the first `n` cards. */
  function Enrichment(client: TrelloClient, cards: seq<Card>, n: nat): (r: seq<Enriched>)
    requires n <= |cards|
    ensures |r| == n
    ensures forall j :: 0 <= j < n ==> r[j] == EnrichedCard(client, cards, j)
  {
    if n == 0 then [] else Enrichment(client, cards, n - 1) + [EnrichedCard(client, cards, n - 1)]
  }

  /** The record built from a card, its list name and its comments is the record of that card. */
  lemma EnrichedCardIs(client: TrelloClient, cards: seq<Card>, i: nat, listName: string, comments: seq<Comment>)
    requires i < |cards|
    requires listName == ListNameFor(client, ListKeys(cards), ListKey(cards[i]))
    requires comments == CardComments(client, cards[i])
    ensures EnrichedCard(client, cards, i) == Enriched(
      cards[i].id, cards[i].name, listName, cards[i].due, cards[i].dateLastActivity,
      LabelTexts(cards[i].labels), cards[i].shortUrl, comments)
  {
  }

  /** The comment fetch of one card, whose failure gives it no comments. */
  method FetchComments(client: TrelloClient, c: Card) returns (comments: seq<Comment>)
    ensures comments == CardComments(client, c)
  {
    comments := [];
    if c.id.Some? {
      var rawComments := client.cardActions(c.id.value);
      if rawComments.Some? {
        comments := CollectComments(rawComments.value);
      }
    }
  }

  /**
   * The list-name cache after the cards before position `i`: it holds one
   * entry per key looked up, `lookups` logs those keys in order, and each
   * entry is the name every card with that key receives.
   */
  ghost predicate CacheAfter(client: TrelloClient, keys: seq<string>, i: nat, cache: map<string, string>, lookups: seq<string>)
    requires i <= |keys|
  {
    && lookups == DistinctKeys(keys[..i])
    && |cache| == |lookups|
    && (forall k :: k in cache <==> k in lookups)
    && (forall k :: k in cache ==> k in keys && cache[k] == ListNameFor(client, keys, k))
  }

  /** Before the first card the cache and the log are empty. */
  lemma CacheAtStart(client: TrelloClient, keys: seq<string>)
    ensures CacheAfter(client, keys, 0, map[], [])
  {
    assert keys[..0] == [];
  }

  /** After the last card the log holds every distinct key once, in order of first occurrence. */
  lemma CacheAtEnd(client: TrelloClient, keys: seq<string>, cache: map<string, string>, lookups: seq<string>)
    requires CacheAfter(client, keys, |keys|, cache, lookups)
    ensures lookups == DistinctKeys(keys)
  {
    assert keys[..|keys|] == keys;
  }

  /** A card whose key is already cached keeps `CacheAfter` and gets the cached name, the key's list name. */
  lemma CacheHit(client: TrelloClient, keys: seq<string>, i: nat, cache: map<string, string>, lookups: seq<string>)
    requires i < |keys| && CacheAfter(client, keys, i, cache, lookups)
    requires keys[i] in cache
    ensures CacheAfter(client, keys, i + 1, cache, lookups)
    ensures cache[keys[i]] == ListNameFor(client, keys, keys[i])
  {
    DistinctKeysStep(keys, i);
  }

  /**
   * A card whose key is not cached yet: the lookup made now is numbered by
   * the size of the cache, and its name is the key's list name.
   */
  lemma CacheMiss(client: TrelloClient, keys: seq<string>, i: nat, cache: map<string, string>, lookups: seq<string>)
    requires i < |keys| && CacheAfter(client, keys, i, cache, lookups)
    requires keys[i] !in cache
    ensures ResolveName(keys[i], client.listLookup(keys[i], |cache|)) == ListNameFor(client, keys, keys[i])
    ensures CacheAfter(client, keys, i + 1, cache[keys[i] := ListNameFor(client, keys, keys[i])], lookups + [keys[i]])
  {
    DistinctKeysStep(keys, i);
    NewKeyRank(keys, i);
    var k := keys[i];
    var cache' := cache[k := ListNameFor(client, keys, k)];
    forall x | x in cache'
      ensures x in keys && cache'[x] == ListNameFor(client, keys, x)
    {
      if x != k {
        assert cache'[x] == cache[x];
      }
    }
  }

  /**
   * The cache step of the loop: a key met for the first time is looked up
   * once, numbered by the lookups made before, and logged; a cached key is
   * answered from the cache.
   */
  method CachedListName(client: TrelloClient, cache: map<string, string>, listId: string,
                        ghost keys: seq<string>, ghost i: nat, ghost lookups: seq<string>)
    returns (cache': map<string, string>, listName: string, ghost lookups': seq<string>)
    requires i < |keys| && keys[i] == listId && CacheAfter(client, keys, i, cache, lookups)
    ensures listId in cache ==> cache' == cache && listName == cache[listId] && lookups' == lookups
    ensures listId !in cache ==>
      listName == ResolveName(listId, client.listLookup(listId, |cache|)) && cache' == cache[listId := listName] &&
      lookups' == lookups + [listId]
    ensures CacheAfter(client, keys, i + 1, cache', lookups')
    ensures listName == ListNameFor(client, keys, listId)
  {
    cache', lookups' := cache, lookups;
    if listId !in cache' {
      CacheMiss(client, keys, i, cache, lookups);
      cache' := cache'[listId := ResolveName(listId, client.listLookup(listId, |cache'|))];
      lookups' := lookups' + [listId];
    } else {
      CacheHit(client, keys, i, cache, lookups);
    }
    listName := cache'[listId];
  }

  /** The body of the loop for card `i`: its list name through the cache, its comments, and its record. */
  method EnrichCard(client: TrelloClient, cards: seq<Card>, i: nat, cache: map<string, string>, ghost lookups: seq<string>)
    returns (record: Enriched, cache': map<string, string>, ghost lookups': seq<string>)
    requires i < |cards| && CacheAfter(client, ListKeys(cards), i, cache, lookups)
    ensures CacheAfter(client, ListKeys(cards), i + 1, cache', lookups')
    ensures record == EnrichedCard(client, cards, i)
  {
    var c := cards[i];
    var listId := c.idList.GetOr("");
    var listName;
    cache', listName, lookups' := CachedListName(client, cache, listId, ListKeys(cards), i, lookups);
    var comments := FetchComments(client, c);
    EnrichedCardIs(client, cards, i, listName, comments);
    record := Enriched(c.id, c.name, listName, c.due, c.dateLastActivity, LabelTexts(c.labels), c.shortUrl, comments);
  }

  /**
   * `enrich_cards_with_details`: one record per card, in order. `lookups`
   * logs the list ids looked up, in order: each distinct key exactly once.
   */
  method EnrichCardsWithDetails(client: TrelloClient, cards: seq<Card>) returns (enriched: seq<Enriched>, ghost lookups: seq<string>)
    ensures enriched == Enrichment(client, cards, |cards|)
    ensures lookups == DistinctKeys(ListKeys(cards))
  {
    var listNameCache: map<string, string> := map[];
    enriched, lookups := [], [];
    CacheAtStart(client, ListKeys(cards));
    for i := 0 to |cards|
      invariant CacheAfter(client, ListKeys(cards), i, listNameCache, lookups)
      invariant enriched == Enrichment(client, cards, i)
    {
      var record;
      record, listNameCache, lookups := EnrichCard(client, cards, i, listNameCache, lookups);
      enriched := enriched + [record];
    }
    CacheAtEnd(client, ListKeys(cards), listNameCache, lookups);
  }

  /** A card's record does not depend on the comments of the other cards. */
  lemma CommentFailureIsLocal(client: TrelloClient, other: TrelloClient, cards: seq<Card>, i: nat)
    requires i < |cards|
    requires other == client.(cardActions := other.cardActions)
    requires cards[i].id.Some? ==> other.cardActions(cards[i].id.value) == client.cardActions(cards[i].id.value)
    ensures EnrichedCard(other, cards, i) == EnrichedCard(client, cards, i)
  {
  }

  // ------------------------------------------------------------------- tools

  /** The first card with the given id. */
  function FindCard(cards: seq<Card>, cardId: string): (r: Option<nat>)
    ensures r.Some? ==> r.value < |cards| && cards[r.value].id == Some(cardId)
    ensures r.Some? ==> forall j :: 0 <= j < r.value ==> cards[j].id != Some(cardId)
    ensures r.None? <==> forall j :: 0 <= j < |cards| ==> cards[j].id != Some(cardId)
  {
    if cards == [] then None
    else if cards[0].id == Some(cardId) then Some(0)
    else
      match FindCard(cards[1..], cardId)
      case None => None
      case Some(j) => Some(j + 1)
  }

  datatype CardOutcome = CardError(error: string) | CardRecord(record: Enriched)

  /** `CardDataFetcherTool._run`: the enriched record of the first card with the id, or an error record. */
  method FetchCard(client: TrelloClient, cardId: string) returns (r: CardOutcome)
    ensures client.cards.Err? ==>
      r == CardError("\U{C9}chec r\U{E9}cup\U{E9}ration carte " + cardId + ": " + client.cards.error)
    ensures client.cards.Ok? && FindCard(client.cards.value, cardId).None? ==>
      r == CardError("Carte " + cardId + " introuvable sur le board.")
    ensures client.cards.Ok? && FindCard(client.cards.value, cardId).Some? ==>
      r == CardRecord(EnrichedCard(client, [client.cards.value[FindCard(client.cards.value, cardId).value]], 0))
  {
    if client.cards.Err? {
      return CardError("\U{C9}chec r\U{E9}cup\U{E9}ration carte " + cardId + ": " + client.cards.error);
    }
    var cards := client.cards.value;
    var found := FindCard(cards, cardId);
    if found.None? {
      return CardError("Carte " + cardId + " introuvable sur le board.");
    }
    var enriched: seq<Enriched>;
    ghost var lookups: seq<string>;
    enriched, lookups := EnrichCardsWithDetails(client, [cards[found.value]]);
    return CardRecord(enriched[0]);
  }

  /** The canned record the board tool returns when the listing fails with error text `e`. */
  function FallbackCard(e: string): (r: Enriched)
    ensures r.id == Some("fallback-card") && r.name == Some("Exemple (fallback)") && r.listName == "TODO"
    ensures r.due.None? && r.lastActivity.None? && r.labels == [Some("Urgent")] && r.shortUrl == Some("")
    ensures |r.comments| == 1 && r.comments[0].text == "Erreur API Trello: " + e
    ensures r.comments[0].date.None? && r.comments[0].member == Some("Syst\U{E8}me")
  {
    Enriched(
      Some("fallback-card"), Some("Exemple (fallback)"), "TODO", None, None, [Some("Urgent")], Some(""),
      [Comment(None, Some("Syst\U{E8}me"), "Erreur API Trello: " + e)])
  }

  /** `BoardDataFetcherTool._run`: every card enriched, or the single fallback record. */
  method FetchBoard(client: TrelloClient) returns (records: seq<Enriched>)
    ensures client.cards.Err? ==> records == [FallbackCard(client.cards.error)]
    ensures client.cards.Ok? ==> |records| == |client.cards.value|
    ensures client.cards.Ok? ==>
      forall i :: 0 <= i < |records| ==> records[i] == EnrichedCard(client, client.cards.value, i)
  {
    if client.cards.Err? {
      return [FallbackCard(client.cards.error)];
    }
    ghost var lookups: seq<string>;
    records, lookups := EnrichCardsWithDetails(client, client.cards.value);
  }
}
