/** Post-processing of the language model's replies: the JSON is dug out of the reply
    text, product lists are normalised, recipe and shopping lists are shaped, and
    price estimates are back-filled from the items asked about. The reply text and
    `json.loads` are parameters: `loads` is any partial parser. */
module GigaChat {
  import opened Wrappers
  import opened Strings
  import opened JsonValues
  import opened Tokens

  const FENCE_JSON: string := "```json"
  const FENCE: string := "```"

  // ---------------------------------------------------------------- _extract_json

  /** `s.split(sep)[1]` when `sep` occurs: the text after the first occurrence, up to
      the next one. */
  function SecondPiece(s: string, sep: string): string
    requires |sep| > 0 && Contains(s, sep)
  {
    SplitAtFirst(s, sep);
    Split(s, sep)[1]
  }

  /** The markdown fences removed: with a "```json" fence, what follows its first
      occurrence; then, with any "```" left, what precedes the first one. */
  function Unfence(t: string): string {
    var a := if Contains(t, FENCE_JSON) then SecondPiece(t, FENCE_JSON) else t;
    if Contains(a, FENCE) then Split(a, FENCE)[0] else a
  }

  /** `t[t.find(open):t.rfind(close) + 1]` when both occur and the close comes after
      the open: it runs from the first `open` to the last `close`. */
  function BracketSlice(t: string, open: char, close: char): (r: Option<string>)
    ensures r.Some? <==> IndexOf(t, [open]).Some? && IndexOf(t, [open]).value < RFind(t, close, |t|)
    ensures r.Some? ==> r.value == t[IndexOf(t, [open]).value..RFind(t, close, |t|) + 1]
    ensures r.Some? ==> |r.value| >= 2 && r.value[0] == open && r.value[|r.value| - 1] == close
    ensures r.Some? ==> forall j :: 0 <= j < IndexOf(t, [open]).value ==> t[j] != open
    ensures r.Some? ==> forall j :: RFind(t, close, |t|) < j < |t| ==> t[j] != close
  {
    var start := IndexOf(t, [open]);
    var end := RFind(t, close, |t|);
    if start.Some? && end != -1 && end > start.value then
      assert forall j :: 0 <= j < start.value ==> t[j] != open by {
        forall j | 0 <= j < start.value ensures t[j] != open {
          assert t[j..j + 1] == [t[j]];
          assert !OccursAt(t, [open], j);
        }
      }
      assert t[start.value..start.value + 1] == [open];
      Some(t[start.value..end + 1])
    else None
  }

  /** The texts tried in turn: the whole text, then the bracketed slice for '[', then
      the one for '{', each only when it exists. */
  function Candidates(t: string): (cs: seq<string>)
    ensures |cs| >= 1 && cs[0] == t
    ensures |cs| == 1 + (if BracketSlice(t, '[', ']').Some? then 1 else 0) + (if BracketSlice(t, '{', '}').Some? then 1 else 0)
    ensures BracketSlice(t, '[', ']').Some? ==> cs[1] == BracketSlice(t, '[', ']').value
    ensures BracketSlice(t, '{', '}').Some? ==> cs[|cs| - 1] == BracketSlice(t, '{', '}').value
  {
    var square := BracketSlice(t, '[', ']');
    var curly := BracketSlice(t, '{', '}');
    [t] + (if square.Some? then [square.value] else []) + (if curly.Some? then [curly.value] else [])
  }

  /** The value of the first candidate `loads` accepts; ValueError when none is. */
  function FirstLoaded(cs: seq<string>, loads: string -> Option<Json>): (r: Result<Json>)
    ensures cs != [] && loads(cs[0]).Some? ==> r == Ok(loads(cs[0]).value)
    ensures r.Ok? ==> exists i :: 0 <= i < |cs| && loads(cs[i]) == Some(r.value) &&
                                  forall k :: 0 <= k < i ==> loads(cs[k]).None?
    ensures r.Err? <==> forall i :: 0 <= i < |cs| ==> loads(cs[i]).None?
    ensures r.Err? ==> r.error == ValueError
  {
    if cs == [] then Err(ValueError)
    else match loads(cs[0])
         case Some(j) => Ok(j)
         case None =>
           var r := FirstLoaded(cs[1..], loads);
           assert forall i :: 1 <= i < |cs| ==> cs[i] == cs[1..][i - 1];
           r
  }

  /** The text that is parsed: stripped, unfenced and stripped again. */
  function Unwrapped(text: string): string {
    Strip(Unfence(Strip(text)))
  }

  /** _extract_json: the whole unwrapped text if it parses, else the '[' … ']' slice,
      else the '{' … '}' slice; ValueError when none parses. */
  function ExtractJson(text: string, loads: string -> Option<Json>): (r: Result<Json>)
    ensures loads(Unwrapped(text)).Some? ==> r == Ok(loads(Unwrapped(text)).value)
    ensures var cs := Candidates(Unwrapped(text));
            r.Ok? ==> exists i :: 0 <= i < |cs| && loads(cs[i]) == Some(r.value)
    ensures var cs := Candidates(Unwrapped(text));
            r.Err? <==> forall i :: 0 <= i < |cs| ==> loads(cs[i]).None?
    ensures r.Err? ==> r.error == ValueError
  {
    FirstLoaded(Candidates(Unwrapped(text)), loads)
  }

  predicate NoBacktick(s: string) {
    forall j :: 0 <= j < |s| ==> s[j] != '`'
  }

  /** A string without backticks holds no fence. */
  lemma NoBacktickNoFence(s: string, fence: string)
    requires NoBacktick(s) && |fence| > 0 && fence[0] == '`'
    ensures !Contains(s, fence)
  {
    AvoidsFirstChar(s, fence);
  }

  /** The first occurrence of a fence right after a text without backticks. */
  lemma FenceAfter(a: string, fence: string, rest: string)
    requires NoBacktick(a) && |fence| > 0 && fence[0] == '`'
    ensures IndexOf(a + fence + rest, fence) == Some(|a|)
  {
    var s := a + fence + rest;
    assert OccursAt(s, fence, |a|) by { assert s[|a|..|a| + |fence|] == fence; }
    forall j | 0 <= j < |a| ensures !OccursAt(s, fence, j) {
      assert s[j..j + |fence|][0] == a[j];
    }
  }

  /** In body + "```" + post the only backticks are the fence's three. */
  lemma FenceOnlyBackticks(body: string, post: string)
    requires NoBacktick(body) && NoBacktick(post)
    ensures var rest := body + FENCE + post;
            forall j :: 0 <= j < |rest| && (j < |body| || |body| + 3 <= j) ==> rest[j] != '`'
  {
    var rest := body + FENCE + post;
    forall j | 0 <= j < |rest| && (j < |body| || |body| + 3 <= j) ensures rest[j] != '`' {
      if j < |body| {
        assert rest[j] == body[j];
      } else {
        assert rest[j] == post[j - |body| - 3];
      }
    }
  }

  /** After prose without backticks, the "```json" fence is found at once and the
      piece after it is the first piece of what follows it. */
  lemma AfterJsonFence(pre: string, rest: string)
    requires NoBacktick(pre)
    ensures Contains(pre + FENCE_JSON + rest, FENCE_JSON)
    ensures SecondPiece(pre + FENCE_JSON + rest, FENCE_JSON) == Split(rest, FENCE_JSON)[0]
  {
    var s := pre + FENCE_JSON + rest;
    FenceAfter(pre, FENCE_JSON, rest);
    SplitAtFirst(s, FENCE_JSON);
    assert s[|pre| + |FENCE_JSON|..] == rest;
  }

  /** Cut at a further "```json", body + "```" + post keeps either just the body or
      all of it. */
  lemma JsonPieceOfRest(body: string, post: string)
    requires NoBacktick(body) && NoBacktick(post)
    ensures var a := Split(body + FENCE + post, FENCE_JSON)[0]; a == body || a == body + FENCE + post
  {
    var rest := body + FENCE + post;
    SplitFirst(rest, FENCE_JSON);
    if Contains(rest, FENCE_JSON) {
      var k := IndexOf(rest, FENCE_JSON).value;
      assert rest[k..k + |FENCE_JSON|] == FENCE_JSON;
      assert rest[k] == FENCE_JSON[0] == '`';
      assert rest[k + 2] == FENCE_JSON[2] == '`';
      FenceOnlyBackticks(body, post);
      assert k == |body|;
      assert rest[..k] == body;
    }
  }

  /** A reply of the form prose, "```json", body, "```", prose, with no other
      backticks, unfences to the body. */
  lemma FencedBody(pre: string, body: string, post: string)
    requires NoBacktick(pre) && NoBacktick(body) && NoBacktick(post)
    ensures Unfence(pre + FENCE_JSON + body + FENCE + post) == body
  {
    var rest := body + FENCE + post;
    assert pre + FENCE_JSON + body + FENCE + post == pre + FENCE_JSON + rest;
    AfterJsonFence(pre, rest);
    JsonPieceOfRest(body, post);
    NoBacktickNoFence(body, FENCE);
    FenceAfter(body, FENCE, post);
    SplitFirst(rest, FENCE);
  }

  /** A reply opening with a bare "```" fence, and no "```json" anywhere, unfences to
      the empty string. */
  lemma BareFence(t: string)
    requires StartsWith(t, FENCE) && !Contains(t, FENCE_JSON)
    ensures Unfence(t) == ""
  {
    assert OccursAt(t, FENCE, 0);
    SplitFirst(t, FENCE);
  }

  // ---------------------------------------------------------------- products

  /** `[str(p).strip().lower() for p in items if p]` */
  function NormalizedItems(items: seq<Json>): (r: seq<string>)
    ensures |r| <= |items|
  {
    if items == [] then []
    else
      var p := items[|items| - 1];
      NormalizedItems(items[..|items| - 1]) + (if Truthy(p) then [Lower(Strip(PyStr(p)))] else [])
  }

  /** A parsed product list normalised; anything but a list gives no products. */
  function NormalizeProducts(j: Json): seq<string> {
    if j.JArr? then NormalizedItems(j.items) else []
  }

  /** Normalisation works item by item, so products keep their order. */
  lemma {:induction false} NormalizedInOrder(a: seq<Json>, b: seq<Json>)
    ensures NormalizedItems(a + b) == NormalizedItems(a) + NormalizedItems(b)
    decreases |b|
  {
    if b == [] {
      assert a + b == a;
    } else {
      var init := b[..|b| - 1];
      assert (a + b)[..|a + b| - 1] == a + init;
      NormalizedInOrder(a, init);
    }
  }

  /** Falsy items are dropped and nothing else is. */
  function TruthyCount(items: seq<Json>): nat {
    if items == [] then 0 else TruthyCount(items[..|items| - 1]) + (if Truthy(items[|items| - 1]) then 1 else 0)
  }

  lemma {:induction false} NormalizedKeepsTruthy(items: seq<Json>)
    ensures |NormalizedItems(items)| == TruthyCount(items)
  {
    if items != [] {
      NormalizedKeepsTruthy(items[..|items| - 1]);
    }
  }

  /** Product names as the JSON strings of a parsed list. */
  function AsJsonStrings(names: seq<string>): (items: seq<Json>)
    ensures |items| == |names|
  {
    if names == [] then [] else AsJsonStrings(names[..|names| - 1]) + [JStr(names[|names| - 1])]
  }

  /** A clean name at the end of the list is kept as it is. */
  lemma NormalizedCleanLast(items: seq<Json>, name: string)
    requires CleanWord(name)
    ensures NormalizedItems(items + [JStr(name)]) == NormalizedItems(items) + [name]
  {
    var all := items + [JStr(name)];
    assert all[..|all| - 1] == items;
    assert Truthy(JStr(name));
    assert Lower(Strip(PyStr(JStr(name)))) == name;
  }

  /** A list of clean product names, as JSON strings, normalises to itself. */
  lemma {:induction false} CleanNamesNormalize(names: seq<string>)
    requires forall k :: 0 <= k < |names| ==> CleanWord(names[k])
    ensures NormalizedItems(AsJsonStrings(names)) == names
  {
    if names != [] {
      var init := names[..|names| - 1];
      var last := names[|names| - 1];
      CleanNamesNormalize(init);
      InitLast(names);
      NormalizedCleanLast(AsJsonStrings(init), last);
    }
  }

  /** The value `_extract_json` gives for a reply, or the error: a failed request is
      passed on as it is. */
  function ReplyJson(reply: Result<string>, loads: string -> Option<Json>): Result<Json> {
    match reply
    case Err(e) => Err(e)
    case Ok(text) => ExtractJson(text, loads)
  }

  /** recognize_products and recognize_products_from_voice: the same shaping of the
      model's reply; a failed request or unparsable reply raises. */
  function RecognizeProducts(reply: Result<string>, loads: string -> Option<Json>): (r: Result<seq<string>>)
    ensures r.Err? <==> ReplyJson(reply, loads).Err?
    ensures r.Ok? ==> r.value == NormalizeProducts(ReplyJson(reply, loads).value)
    ensures r.Ok? && !ReplyJson(reply, loads).value.JArr? ==> r.value == []
  {
    match ReplyJson(reply, loads)
    case Err(e) => Err(e)
    case Ok(j) => Ok(NormalizeProducts(j))
  }

  /** recognize_products_from_photo. The token is obtained (and may be fetched and
      cached) and the photo uploaded; but the follow-up request passes a `model`
      argument the request helper does not take, so it raises TypeError before any
      request, the error is swallowed, and no product is ever returned. */
  method RecognizeProductsFromPhoto(cache: TokenCache, now: int, auth: AuthResponse, doneAt: int)
    returns (uploadSent: bool, products: seq<string>)
    modifies cache
    ensures products == []
    ensures uploadSent <==> TokenFor(old(cache.State()), now, auth).Ok?
    ensures cache.State() == if Reusable(old(cache.State()), now) then old(cache.State())
                             else AfterFetch(old(cache.State()), auth, doneAt)
  {
    var token := cache.GetToken(now, auth, doneAt);
    if token.Err? {
      return false, [];
    }
    uploadSent := true;
    // Whatever the upload answered, the next step raises TypeError, which is caught.
    products := [];
  }

  /** The photo fallback: the photo's products and whether there are at least two. */
  method RecognizeProductsFromPhotoFallback(cache: TokenCache, now: int, auth: AuthResponse, doneAt: int)
    returns (products: seq<string>, confident: bool)
    modifies cache
    ensures confident <==> |products| >= 2
    ensures products == [] && !confident
    ensures cache.State() == if Reusable(old(cache.State()), now) then old(cache.State())
                             else AfterFetch(old(cache.State()), auth, doneAt)
  {
    var _, found := RecognizeProductsFromPhoto(cache, now, auth, doneAt);
    products := found;
    confident := |products| >= 2;
  }

  // ---------------------------------------------------------------- recipes and shopping lists

  /** get_recipes: a single object becomes a one-recipe list, a list is kept, and
      anything else gives no recipes; a failed request or unparsable reply raises. */
  function GetRecipes(reply: Result<string>, loads: string -> Option<Json>): (r: Result<seq<Json>>)
    ensures r.Err? <==> ReplyJson(reply, loads).Err?
    ensures r.Ok? ==> match ReplyJson(reply, loads).value
                      case JObj(_) => r.value == [ReplyJson(reply, loads).value]
                      case JArr(items) => r.value == items
                      case _ => r.value == []
  {
    match ReplyJson(reply, loads)
    case Err(e) => Err(e)
    case Ok(j) => Ok(if j.JObj? then [j] else if j.JArr? then j.items else [])
  }

  /** A slice that starts in `x` and ends in `y` keeps all of `m`. */
  lemma SliceAcross(x: string, m: string, y: string, i: nat, j: nat)
    requires i <= |x| && |x| + |m| <= j <= |x| + |m| + |y|
    ensures (x + m + y)[i..j] == x[i..] + m + y[..j - |x| - |m|]
  {
  }

  /** Stripping cuts white space off the ends only, so a middle part that starts
      and ends with a non-space survives whole. */
  lemma StripKeepsMiddle(pre: string, m: string, post: string)
    requires |m| > 0 && !IsSpace(m[0]) && !IsSpace(m[|m| - 1])
    ensures exists i: nat, j: nat :: i <= |pre| && j <= |post| && Strip(pre + m + post) == pre[i..] + m + post[..j]
  {
    var text := pre + m + post;
    StripIsTrimmedSlice(text);
    var a := SkipSpace(text, 0);
    var s := Strip(text);
    assert a <= |pre| by {
      assert text[|pre|] == m[0];
    }
    assert |pre| + |m| <= a + |s| by {
      assert text[|pre| + |m| - 1] == m[|m| - 1];
    }
    SliceAcross(pre, m, post, a, a + |s|);
  }

  /** A suffix or a prefix of a text without backticks has none. */
  lemma NoBacktickSlices(s: string, i: nat, j: nat)
    requires NoBacktick(s) && i <= |s| && j <= |s|
    ensures NoBacktick(s[i..]) && NoBacktick(s[..j])
  {
    forall k | 0 <= k < |s| - i ensures s[i..][k] != '`' {
      assert s[i..][k] == s[i + k];
    }
  }

  /** The fenced part of a reply, as one piece. */
  lemma FencedMiddle(pre: string, body: string, post: string)
    ensures pre + FENCE_JSON + body + FENCE + post == pre + (FENCE_JSON + body + FENCE) + post
  {
  }

  /** Stripping a fenced reply leaves the fenced part whole. */
  lemma StripFenced(pre: string, body: string, post: string)
    ensures exists i: nat, j: nat :: i <= |pre| && j <= |post| &&
              Strip(pre + (FENCE_JSON + body + FENCE) + post) == pre[i..] + (FENCE_JSON + body + FENCE) + post[..j]
  {
    var m := FENCE_JSON + body + FENCE;
    assert m[0] == FENCE_JSON[0] == '`';
    assert m[|m| - 1] == FENCE[2] == '`';
    StripKeepsMiddle(pre, m, post);
  }

  /** FencedBody, for the fenced part taken as one piece. */
  lemma FencedMiddleBody(pre: string, body: string, post: string)
    requires NoBacktick(pre) && NoBacktick(body) && NoBacktick(post)
    ensures Unfence(pre + (FENCE_JSON + body + FENCE) + post) == body
  {
    FencedMiddle(pre, body, post);
    FencedBody(pre, body, post);
  }

  /** Stripping the reply first does not change what is unfenced, as long as the
      white space is outside the fences. */
  lemma FencedBodyStripped(pre: string, body: string, post: string)
    requires NoBacktick(pre) && NoBacktick(body) && NoBacktick(post)
    ensures Unwrapped(pre + FENCE_JSON + body + FENCE + post) == Strip(body)
  {
    FencedMiddle(pre, body, post);
    StripFenced(pre, body, post);
    var i: nat, j: nat :| i <= |pre| && j <= |post| &&
      Strip(pre + (FENCE_JSON + body + FENCE) + post) == pre[i..] + (FENCE_JSON + body + FENCE) + post[..j];
    NoBacktickSlices(pre, i, 0);
    NoBacktickSlices(post, 0, j);
    FencedMiddleBody(pre[i..], body, post[..j]);
  }

  /** A fenced reply holding one recipe object gives that one recipe. */
  lemma FencedRecipe(pre: string, body: string, post: string, loads: string -> Option<Json>, recipe: map<string, Json>)
    requires NoBacktick(pre) && NoBacktick(body) && NoBacktick(post)
    requires loads(Strip(body)) == Some(JObj(recipe))
    ensures GetRecipes(Ok(pre + FENCE_JSON + body + FENCE + post), loads) == Ok([JObj(recipe)])
  {
    FencedBodyStripped(pre, body, post);
  }

  /** get_shopping_list: a list is kept, anything else gives an empty list. */
  function GetShoppingList(reply: Result<string>, loads: string -> Option<Json>): (r: Result<seq<Json>>)
    ensures r.Err? <==> ReplyJson(reply, loads).Err?
    ensures r.Ok? && ReplyJson(reply, loads).value.JArr? ==> r.value == ReplyJson(reply, loads).value.items
    ensures r.Ok? && !ReplyJson(reply, loads).value.JArr? ==> r.value == []
  {
    match ReplyJson(reply, loads)
    case Err(e) => Err(e)
    case Ok(j) => Ok(if j.JArr? then j.items else [])
  }

  // ---------------------------------------------------------------- get_shopping_list_with_prices

  /** Every item asked about has a name; the prompt reads `item['name']` for each. */
  predicate AllNamed(missing: seq<map<string, Json>>) {
    forall i :: 0 <= i < |missing| ==> "name" in missing[i]
  }

  /** An estimate with an empty name or amount filled in from the item asked about. */
  function BackFilled(item: map<string, Json>, asked: map<string, Json>): map<string, Json>
    requires "name" in asked
  {
    var named := if Truthy(Get(item, "name")) then item else item["name" := asked["name"]];
    if Truthy(Get(named, "amount")) then named else named["amount" := GetOr(asked, "amount", JStr(""))]
  }

  /** The list returned when estimating fails: the items asked about, at price 0. */
  function PriceFallback(missing: seq<map<string, Json>>): (r: seq<Json>)
    requires AllNamed(missing)
    ensures |r| == |missing|
    ensures forall i :: 0 <= i < |r| ==>
              r[i].JObj? && Get(r[i].fields, "name") == missing[i]["name"] &&
              Get(r[i].fields, "estimated_price") == JNum(0) && Get(r[i].fields, "where_to_buy") == JStr("")
  {
    seq(|missing|, i requires 0 <= i < |missing| =>
      JObj(map["name" := missing[i]["name"], "amount" := GetOr(missing[i], "amount", JStr("")),
               "estimated_price" := JNum(0), "where_to_buy" := JStr("")]))
  }

  /** Each estimate matched with an item asked about is an object. */
  predicate ObjectsWhereAsked(items: seq<Json>, missing: seq<map<string, Json>>) {
    forall i :: 0 <= i < |items| && i < |missing| ==> items[i].JObj?
  }

  /** The estimates with the first |missing| back-filled and the rest as they came. */
  function BackFilledList(items: seq<Json>, missing: seq<map<string, Json>>): seq<Json>
    requires AllNamed(missing) && ObjectsWhereAsked(items, missing)
  {
    seq(|items|, i requires 0 <= i < |items| =>
      if i < |missing| then JObj(BackFilled(items[i].fields, missing[i])) else items[i])
  }

  /** The list returned for a reply: a non-empty list of estimates back-filled, or
      the fallback when the request failed, the reply did not parse, was not a
      non-empty list, or had a non-object where an item asked about is matched. */
  function PricedList(missing: seq<map<string, Json>>, answer: Result<Json>): seq<Json>
    requires AllNamed(missing)
  {
    if answer.Ok? && answer.value.JArr? && answer.value.items != [] && ObjectsWhereAsked(answer.value.items, missing)
    then BackFilledList(answer.value.items, missing)
    else PriceFallback(missing)
  }

  /** get_shopping_list_with_prices. An item asked about without a name raises
      KeyError while the prompt is built. Otherwise the reply is parsed and, when it is
      a non-empty list, each estimate matched with an item asked about gets an empty
      name or amount filled in; any failure on the way gives the fallback list. */
  method ShoppingListWithPrices(missing: seq<map<string, Json>>, reply: Result<string>,
                                loads: string -> Option<Json>)
    returns (r: Result<seq<Json>>)
    ensures !AllNamed(missing) ==> r == Err(KeyError)
    ensures AllNamed(missing) ==> r == Ok(PricedList(missing, ReplyJson(reply, loads)))
  {
    var n := 0;
    while n < |missing|
      invariant 0 <= n <= |missing|
      invariant forall i :: 0 <= i < n ==> "name" in missing[i]
    {
      if "name" !in missing[n] {
        return Err(KeyError);
      }
      n := n + 1;
    }
    assert AllNamed(missing);
    var answer := ReplyJson(reply, loads);
    if answer.Err? || !answer.value.JArr? || answer.value.items == [] {
      return Ok(PriceFallback(missing));
    }
    var filled := BackFill(answer.value.items, missing);
    r := Ok(if filled.Some? then filled.value else PriceFallback(missing));
  }

  /** The loop over the estimates: each one matched with an item asked about has an
      empty name or amount filled in; a matched estimate that is not an object stops
      the loop (`.get` raises AttributeError) and gives None. */
  method BackFill(original: seq<Json>, missing: seq<map<string, Json>>) returns (filled: Option<seq<Json>>)
    requires AllNamed(missing)
    ensures filled.Some? <==> ObjectsWhereAsked(original, missing)
    ensures filled.Some? ==> filled.value == BackFilledList(original, missing)
  {
    var items := original;
    var i := 0;
    while i < |items|
      invariant 0 <= i <= |items| == |original|
      invariant ObjectsWhereAsked(original[..i], missing)
      invariant forall k :: 0 <= k < i ==>
                  items[k] == if k < |missing| then JObj(BackFilled(original[k].fields, missing[k])) else original[k]
      invariant items[i..] == original[i..]
    {
      assert items[i] == items[i..][0] == original[i];
      if i < |missing| {
        if !items[i].JObj? {
          return None;
        }
        items := items[i := JObj(BackFilled(items[i].fields, missing[i]))];
      }
      assert original[..i + 1] == original[..i] + [original[i]];
      i := i + 1;
    }
    assert original[..i] == original;
    assert items == BackFilledList(original, missing);
    filled := Some(items);
  }

  /** Back-filling touches only the name and the amount: an empty name takes the name
      asked about, an empty amount the amount asked about (or ""), and the price, shop
      section and every other field stay as estimated. */
  lemma BackFillTouchesNameAndAmount(item: map<string, Json>, asked: map<string, Json>)
    requires "name" in asked
    ensures Get(BackFilled(item, asked), "name") ==
              if Truthy(Get(item, "name")) then Get(item, "name") else asked["name"]
    ensures Get(BackFilled(item, asked), "amount") ==
              if Truthy(Get(item, "amount")) then Get(item, "amount") else GetOr(asked, "amount", JStr(""))
    ensures forall k :: k != "name" && k != "amount" ==> Get(BackFilled(item, asked), k) == Get(item, k)
  {
  }

  /** The list returned keeps the model's estimates: one entry per estimate, each
      matched estimate keeps its price and shop section and gets a name whenever the
      item asked about had one; otherwise one entry per item asked about, at price 0. */
  lemma PricedListKeepsEstimates(missing: seq<map<string, Json>>, answer: Result<Json>)
    requires AllNamed(missing)
    ensures var r := PricedList(missing, answer);
            if answer.Ok? && answer.value.JArr? && answer.value.items != [] && ObjectsWhereAsked(answer.value.items, missing)
            then
              var items := answer.value.items;
              |r| == |items| &&
              (forall i :: |missing| <= i < |items| ==> r[i] == items[i]) &&
              (forall i :: 0 <= i < |items| && i < |missing| ==>
                 r[i].JObj? &&
                 Get(r[i].fields, "estimated_price") == Get(items[i].fields, "estimated_price") &&
                 Get(r[i].fields, "where_to_buy") == Get(items[i].fields, "where_to_buy") &&
                 (Truthy(missing[i]["name"]) ==> Truthy(Get(r[i].fields, "name"))))
            else
              |r| == |missing| &&
              forall i :: 0 <= i < |missing| ==> Get(r[i].fields, "estimated_price") == JNum(0)
  {
    if answer.Ok? && answer.value.JArr? && answer.value.items != [] && ObjectsWhereAsked(answer.value.items, missing) {
      var items := answer.value.items;
      forall i | 0 <= i < |items| && i < |missing| {
        BackFillTouchesNameAndAmount(items[i].fields, missing[i]);
      }
    }
  }
}
