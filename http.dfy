/** The HTTP surface shared by the three edge functions: URLs with query parameters and responses. */
module Http {
  import opened Wrappers

  /**
   * A URL as its base and its query parameters in order. Percent-encoding of the values is not
   * part of this model: the pairs hold the unencoded values.
   */
  datatype Url = Url(base: string, query: seq<(string, string)>)

  /** `searchParams.get(key)`: the value of the first parameter named `key`. */
  function QueryValue(query: seq<(string, string)>, key: string): Option<string>
  {
    if |query| == 0 then None
    else if query[0].0 == key then Some(query[0].1)
    else QueryValue(query[1..], key)
  }

  /** A value is found exactly when some parameter has the name, and it is that parameter's value. */
  lemma {:induction false} QueryValueSpec(query: seq<(string, string)>, key: string)
    ensures QueryValue(query, key).Some? <==> exists i :: 0 <= i < |query| && query[i].0 == key
    ensures QueryValue(query, key).Some? ==> exists i :: 0 <= i < |query| && query[i] == (key, QueryValue(query, key).value)
  {
    if |query| > 0 && query[0].0 != key {
      QueryValueSpec(query[1..], key);
      assert forall i :: 0 <= i < |query| - 1 ==> query[1..][i] == query[i + 1];
    }
  }

  /** The value found is the one at the first position named `key`. */
  lemma {:induction false} QueryValueAt(query: seq<(string, string)>, key: string, k: nat)
    requires k < |query| && query[k].0 == key
    requires forall i :: 0 <= i < k ==> query[i].0 != key
    ensures QueryValue(query, key) == Some(query[k].1)
  {
    if k > 0 {
      assert query[1..][k - 1] == query[k];
      QueryValueAt(query[1..], key, k - 1);
    }
  }

  /**
   * What an edge function answers: the empty CORS pre-flight answer, a 302 redirect, a JSON body
   * with status 200, or `{ error: message }` with status 400.
   */
  datatype Response<B> = Preflight | Redirect(location: Url) | Json(body: B) | Error(message: string)

  /** The HTTP status code of a response. */
  function Status<B>(r: Response<B>): (code: int)
    ensures code == 400 <==> r.Error?
    ensures code == 302 <==> r.Redirect?
  {
    match r
    case Preflight => 200
    case Redirect(_) => 302
    case Json(_) => 200
    case Error(_) => 400
  }
}
