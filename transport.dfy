/**
 * The HTTP transport seen from the fetchers. A GET is an abstract per-path
 * response (`Ok(list)` or `Err(thrown)`); a POST is the request it records.
 * `Collect` is `Promise.all` followed by `.flat()`: results are gathered
 * positionally, the first failing response in list order fails the whole call.
 */
module Transport {
  import opened Wrappers
  import JsArray

  /** What a rejected promise carries: an `Error` object or any other value. */
  datatype Thrown = ErrorObject(message: string) | OtherValue

  datatype Body = NoBody | ActionBody(action: string)

  datatype Request = Get(path: string) | Post(path: string, body: Body)

  /** The outcome of one GET: the list field of the JSON response, or a failure. */
  datatype Response<T> = Ok(items: seq<T>) | Err(error: Thrown)

  /** What a fan-out did: the requests it issued and what it returned. */
  datatype Fetched<T> = Fetched(requests: seq<Request>, result: Result<seq<T>, Thrown>)

  predicate AllOk<T>(responses: seq<Response<T>>)
  {
    forall i :: 0 <= i < |responses| ==> responses[i].Ok?
  }

  /** The lists carried by responses that all succeeded. */
  function ItemLists<T>(responses: seq<Response<T>>): (lists: seq<seq<T>>)
    requires AllOk(responses)
    ensures |lists| == |responses|
    ensures forall i :: 0 <= i < |lists| ==> lists[i] == responses[i].items
  {
    seq(|responses|, i requires 0 <= i < |responses| => responses[i].items)
  }

  /** `(await Promise.all(responses)).flat()`. */
  function Collect<T>(responses: seq<Response<T>>): (r: Result<seq<T>, Thrown>)
    ensures r.Success? <==> AllOk(responses)
    ensures r.Success? ==> |r.value| == JsArray.SumLengths(ItemLists(responses))
  {
    if responses == [] then Success([])
    else
      assert AllOk(responses) ==>
        AllOk(responses[1..]) && ItemLists(responses)[1..] == ItemLists(responses[1..]);
      match responses[0]
      case Err(e) => Failure(e)
      case Ok(items) =>
        match Collect(responses[1..])
        case Failure(e) => Failure(e)
        case Success(rest) => Success(items + rest)
  }

  /** On success the result is the per-response lists concatenated in list order. */
  lemma {:induction false} CollectFlattens<T>(responses: seq<Response<T>>)
    requires AllOk(responses)
    ensures Collect(responses) == Success(JsArray.Flatten(ItemLists(responses)))
    decreases |responses|
  {
    if responses != [] {
      assert AllOk(responses[1..]);
      assert ItemLists(responses)[1..] == ItemLists(responses[1..]);
      CollectFlattens(responses[1..]);
    }
  }

  /** On failure the error is that of the first failing response; nothing else is returned. */
  lemma {:induction false} CollectFirstError<T>(responses: seq<Response<T>>, k: nat)
    requires k < |responses| && responses[k].Err?
    requires forall j :: 0 <= j < k ==> responses[j].Ok?
    ensures Collect(responses) == Failure(responses[k].error)
    decreases k
  {
    if k > 0 {
      CollectFirstError(responses[1..], k - 1);
    }
  }

  /** Gathering two batches is gathering each and concatenating: order across batches is kept. */
  lemma {:induction false} CollectAppend<T>(a: seq<Response<T>>, b: seq<Response<T>>)
    requires AllOk(a) && AllOk(b)
    ensures Collect(a + b) == Success(Collect(a).value + Collect(b).value)
    decreases |a|
  {
    if a == [] {
      assert a + b == b;
      assert Collect(a).value == [];
      assert [] + Collect(b).value == Collect(b).value;
    } else {
      assert (a + b)[0] == a[0] && (a + b)[1..] == a[1..] + b;
      assert AllOk(a[1..]) && AllOk(a[1..] + b);
      CollectAppend(a[1..], b);
      assert Collect(a).value == a[0].items + Collect(a[1..]).value;
      assert Collect(a + b) == Success(a[0].items + Collect(a[1..] + b).value);
      var x, y, z := a[0].items, Collect(a[1..]).value, Collect(b).value;
      assert x + (y + z) == (x + y) + z;
    }
  }

  /**
   * One GET per region on `pathOf(region)`, all issued before any is awaited,
   * then the responses collected.
   */
  function FanOut<T>(regions: seq<string>, pathOf: string -> string, get: string -> Response<T>)
    : (r: Fetched<T>)
    ensures |r.requests| == |regions|
    ensures forall i :: 0 <= i < |regions| ==> r.requests[i] == Get(pathOf(regions[i]))
    ensures r.result.Success? <==> forall i :: 0 <= i < |regions| ==> get(pathOf(regions[i])).Ok?
  {
    var responses := seq(|regions|, i requires 0 <= i < |regions| => get(pathOf(regions[i])));
    assert forall i :: 0 <= i < |regions| ==> responses[i] == get(pathOf(regions[i]));
    Fetched(seq(|regions|, i requires 0 <= i < |regions| => Get(pathOf(regions[i]))),
            Collect(responses))
  }

  /** The lists the regional GETs returned, in region order, when all succeeded. */
  function RegionItems<T>(regions: seq<string>, pathOf: string -> string, get: string -> Response<T>)
    : (lists: seq<seq<T>>)
    requires forall i :: 0 <= i < |regions| ==> get(pathOf(regions[i])).Ok?
    ensures |lists| == |regions|
  {
    seq(|regions|, i requires 0 <= i < |regions| => get(pathOf(regions[i])).items)
  }

  /** A successful fan-out returns the regional lists concatenated in region order. */
  lemma FanOutFlattens<T>(regions: seq<string>, pathOf: string -> string, get: string -> Response<T>)
    requires forall i :: 0 <= i < |regions| ==> get(pathOf(regions[i])).Ok?
    ensures FanOut(regions, pathOf, get).result == Success(JsArray.Flatten(RegionItems(regions, pathOf, get)))
  {
    var responses := seq(|regions|, i requires 0 <= i < |regions| => get(pathOf(regions[i])));
    CollectFlattens(responses);
    assert ItemLists(responses) == RegionItems(regions, pathOf, get);
  }

  /**
   * Where region `k`'s list sits in a successful fan-out's result: right after
   * the lists of the regions before it.
   */
  lemma FanOutRegionSlice<T>(regions: seq<string>, pathOf: string -> string, get: string -> Response<T>, k: nat)
    requires forall i :: 0 <= i < |regions| ==> get(pathOf(regions[i])).Ok?
    requires k < |regions|
    ensures var lists, start := RegionItems(regions, pathOf, get), JsArray.SumLengths(RegionItems(regions, pathOf, get)[..k]);
            var value := FanOut(regions, pathOf, get).result.value;
            && start + |lists[k]| <= |value|
            && value[start..start + |lists[k]|] == get(pathOf(regions[k])).items
  {
    var lists := RegionItems(regions, pathOf, get);
    FanOutFlattens(regions, pathOf, get);
    assert lists == lists[..k] + [lists[k]] + lists[k + 1..];
    JsArray.FlattenAppend(lists[..k] + [lists[k]], lists[k + 1..]);
    JsArray.FlattenAppend(lists[..k], [lists[k]]);
    assert [lists[k]][1..] == [];
    assert JsArray.Flatten([lists[k]]) == lists[k];
  }

  /** A fan-out over three regions, spelled out region by region. */
  lemma FanOutThree<T>(regions: seq<string>, pathOf: string -> string, get: string -> Response<T>)
    requires |regions| == 3
    ensures var r := FanOut(regions, pathOf, get);
            && r.requests == [Get(pathOf(regions[0])), Get(pathOf(regions[1])), Get(pathOf(regions[2]))]
            && (r.result.Success? ==>
                  r.result.value == get(pathOf(regions[0])).items + get(pathOf(regions[1])).items
                                  + get(pathOf(regions[2])).items)
  {
    if FanOut(regions, pathOf, get).result.Success? {
      FanOutFlattens(regions, pathOf, get);
      var lists := RegionItems(regions, pathOf, get);
      assert lists[1..][1..] == [lists[2]] && [lists[2]][1..] == [];
      assert JsArray.Flatten([lists[2]]) == lists[2];
      assert JsArray.Flatten(lists[1..]) == lists[1] + lists[2];
    }
  }

  /**
   * When the path template is injective and the regions are distinct, the
   * fan-out sends exactly one request per region: no two requests coincide.
   */
  lemma FanOutOneRequestPerRegion<T>(regions: seq<string>, pathOf: string -> string, get: string -> Response<T>)
    requires forall i, j :: 0 <= i < j < |regions| ==> regions[i] != regions[j]
    requires forall x, y :: pathOf(x) == pathOf(y) ==> x == y
    ensures var r := FanOut(regions, pathOf, get);
            forall i, j :: 0 <= i < j < |r.requests| ==> r.requests[i] != r.requests[j]
  {
  }
}
