/** `request.GET`: a query dictionary that may hold a key several times. */
module Http {
  import opened Results

  /** The query string's `(key, value)` pairs in the order they were sent. */
  datatype QueryDict = QueryDict(pairs: seq<(string, string)>) {

    /** `request.GET.get(key)`: the last value sent for `key`. */
    function Get(key: string): Option<string> {
      LastValue(pairs, key)
    }

    /** `for param in request.GET`: every key once, in the order of its
        first occurrence. */
    function Keys(): seq<string> {
      KeysOf(pairs)
    }
  }

  function LastValue(pairs: seq<(string, string)>, key: string): Option<string> {
    if pairs == [] then None
    else if pairs[|pairs| - 1].0 == key then Some(pairs[|pairs| - 1].1)
    else LastValue(pairs[..|pairs| - 1], key)
  }

  function KeysOf(pairs: seq<(string, string)>): seq<string> {
    if pairs == [] then []
    else
      var before := KeysOf(pairs[..|pairs| - 1]);
      var k := pairs[|pairs| - 1].0;
      if k in before then before else before + [k]
  }

  predicate Distinct(s: seq<string>) {
    forall i, j :: 0 <= i < j < |s| ==> s[i] != s[j]
  }

  /** Iteration visits each key exactly once, and exactly the keys that were
      sent; each of them has a value. */
  lemma {:induction false} KeysExactly(pairs: seq<(string, string)>)
    ensures Distinct(KeysOf(pairs))
    ensures forall k :: k in KeysOf(pairs) <==> LastValue(pairs, k).Some?
  {
    if pairs != [] {
      KeysExactly(pairs[..|pairs| - 1]);
    }
  }
}
