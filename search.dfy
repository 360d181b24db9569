/**
 * The hit extraction of the search query handler in `example_query`: the
 * Elasticsearch response's `hits.hits` array becomes a list of greetings,
 * one per hit whose `_source.value` is a string, in hit order, and a final
 * `"Test!"` greeting is always appended.
 */
module Search {
  import opened Wrappers
  import opened Proto
  import Json

  /** The greeting every search response ends with */
  const TEST_GREETING: Greeting := Greeting("Test!")

  /** `json_value["hits"]["hits"]` as a list of hits: its items if it is an array, none otherwise */
  function HitList(response: Json.Value): seq<Json.Value>
  {
    var hits := Json.Index(Json.Index(response, "hits"), "hits");
    if hits.Array? then hits.items else []
  }

  /** The message a hit contributes: `document["_source"]["value"]` when that is a JSON string */
  function HitMessage(document: Json.Value): Option<string>
  {
    match Json.Index(Json.Index(document, "_source"), "value")
    case String(message) => Some(message)
    case _ => None
  }

  /** The greetings a list of hits contributes, in the order of the hits */
  function Greetings(hits: seq<Json.Value>): (r: seq<Greeting>)
    ensures |r| <= |hits|
    decreases |hits|
  {
    if hits == [] then []
    else
      var last := hits[|hits| - 1];
      Greetings(hits[..|hits| - 1]) + if HitMessage(last).Some? then [Greeting(HitMessage(last).value)] else []
  }

  /**
   * Lines 63-79 of `handle_search_query`: the loop over the hits and the
   * final push. The result ends with `"Test!"`, holds at most one greeting
   * per hit before it, and is exactly `["Test!"]` when `hits.hits` is not an
   * array.
   */
  method ExtractGreetings(response: Json.Value) returns (greetings: seq<Greeting>)
    ensures greetings == Greetings(HitList(response)) + [TEST_GREETING]
    ensures 1 <= |greetings| <= |HitList(response)| + 1
    ensures greetings[|greetings| - 1] == TEST_GREETING
    ensures !Json.Index(Json.Index(response, "hits"), "hits").Array? ==> greetings == [TEST_GREETING]
  {
    var hits := Json.Index(Json.Index(response, "hits"), "hits");
    greetings := [];
    if hits.Array? {
      for i := 0 to |hits.items|
        invariant greetings == Greetings(hits.items[..i])
      {
        assert hits.items[..i + 1][..i] == hits.items[..i];
        match Json.Index(Json.Index(hits.items[i], "_source"), "value") {
          case String(message) =>
            greetings := greetings + [Greeting(message)];
          case _ =>
        }
      }
      assert hits.items[..|hits.items|] == hits.items;
    }
    greetings := greetings + [TEST_GREETING];
  }

  /** The hits the greetings come from: the positions of the hits with a string value, in increasing order */
  function SourceIndices(hits: seq<Json.Value>): seq<nat>
    decreases |hits|
  {
    if hits == [] then []
    else SourceIndices(hits[..|hits| - 1]) + if HitMessage(hits[|hits| - 1]).Some? then [|hits| - 1] else []
  }

  /**
   * The greetings are the string values of exactly the hits that have one,
   * in the order of those hits: the k-th greeting comes from the k-th such
   * hit, the positions increase, and no such hit is skipped.
   */
  lemma {:induction false} GreetingsFollowHits(hits: seq<Json.Value>)
    ensures |Greetings(hits)| == |SourceIndices(hits)|
    ensures forall k :: 0 <= k < |SourceIndices(hits)| ==>
      SourceIndices(hits)[k] < |hits| &&
      HitMessage(hits[SourceIndices(hits)[k]]) == Some(Greetings(hits)[k].message)
    ensures forall k, l :: 0 <= k < l < |SourceIndices(hits)| ==> SourceIndices(hits)[k] < SourceIndices(hits)[l]
    ensures forall i :: 0 <= i < |hits| && HitMessage(hits[i]).Some? ==> i in SourceIndices(hits)
    decreases |hits|
  {
    if hits != [] {
      var prefix := hits[..|hits| - 1];
      GreetingsFollowHits(prefix);
      forall k | 0 <= k < |SourceIndices(prefix)|
        ensures hits[SourceIndices(prefix)[k]] == prefix[SourceIndices(prefix)[k]]
      {
      }
      forall i | 0 <= i < |hits| - 1 && HitMessage(hits[i]).Some?
        ensures i in SourceIndices(prefix)
      {
        assert hits[i] == prefix[i];
      }
    }
  }

  /** Extraction distributes over concatenation of hit lists: a hit's contribution does not depend on its neighbours */
  lemma {:induction false} GreetingsAppend(a: seq<Json.Value>, b: seq<Json.Value>)
    ensures Greetings(a + b) == Greetings(a) + Greetings(b)
    decreases |b|
  {
    if b == [] {
      assert a + b == a;
    } else {
      assert (a + b)[..|a + b| - 1] == a + b[..|b| - 1];
      assert (a + b)[|a + b| - 1] == b[|b| - 1];
      GreetingsAppend(a, b[..|b| - 1]);
    }
  }

  /** A single hit contributes a greeting if and only if its `_source.value` is a string, and then that string */
  lemma SingleHit(document: Json.Value)
    ensures |Greetings([document])| == 1 <==> HitMessage(document).Some?
    ensures HitMessage(document).Some? ==> Greetings([document]) == [Greeting(HitMessage(document).value)]
    ensures HitMessage(document).None? ==> Greetings([document]) == []
  {
    assert [document][..0] == [];
  }
}
