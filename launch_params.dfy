/**
 * getURLParameters from assets/js/pay.js: decodes the whole query string
 * once, splits it on `&`, splits each piece on `=`, and keeps the pieces
 * named `amount`, `origin` or `register_id`.
 */
module LaunchParams {
  import opened Wrappers
  import opened Js
  import Uri

  /** The launch parameters the reader keeps; every other name is ignored. */
  const Recognised: set<string> := {"amount", "origin", "register_id"}

  /** The `parameters` object: a recognised name maps to a string, or to undefined when its piece had no `=`. */
  type Parameters = map<string, Value>

  /** `param.split('=')[0]`. */
  function Name(param: string): string {
    Split(param, '=')[0]
  }

  /** `param.split('=')[1]`: undefined when the piece has no `=`. */
  function ValueOf(param: string): Value {
    var fields := Split(param, '=');
    if |fields| > 1 then Str(fields[1]) else Undefined
  }

  /** One turn of the forEach: store a recognised piece's value under its name. */
  function Store(parameters: Parameters, param: string): Parameters {
    if Name(param) in Recognised then parameters[Name(param) := ValueOf(param)] else parameters
  }

  /** What the forEach leaves in `parameters` after visiting `params` in order. */
  function Collect(params: seq<string>): Parameters {
    if |params| == 0 then map[]
    else Store(Collect(params[..|params| - 1]), params[|params| - 1])
  }

  /** `location.search.substring(1)`: the query without its leading `?`. */
  function Query(search: string): string {
    if |search| == 0 then "" else search[1..]
  }

  /** getURLParameters: the thrown URIError, or the parameters read from `search`. */
  function ReadLaunchParameters(search: string): Result<Parameters, Uri.UriError> {
    match Uri.Decode(Query(search))
    case Err(e) => Err(e)
    case Ok(pageURL) => Ok(Collect(Split(pageURL, '&')))
  }

  /** getURLParameters as the source writes it: a loop that updates `parameters` piece by piece. */
  method GetURLParameters(search: string) returns (r: Result<Parameters, Uri.UriError>)
    ensures r == ReadLaunchParameters(search)
  {
    var pageURL := Uri.Decode(Query(search));
    if pageURL.Err? {
      return Err(pageURL.error);
    }
    var params := Split(pageURL.value, '&');
    var parameters: Parameters := map[];
    var i := 0;
    while i < |params|
      invariant 0 <= i <= |params|
      invariant parameters == Collect(params[..i])
    {
      var paramName := Split(params[i], '=');
      var value := if |paramName| > 1 then Str(paramName[1]) else Undefined;
      if paramName[0] == "amount" {
        parameters := parameters["amount" := value];
      } else if paramName[0] == "origin" {
        parameters := parameters["origin" := value];
      } else if paramName[0] == "register_id" {
        parameters := parameters["register_id" := value];
      }
      assert params[..i + 1][..i] == params[..i];
      i := i + 1;
    }
    assert params[..|params|] == params;
    r := Ok(parameters);
  }

  /**
   * A piece's name is the text before its first `=`; its value is undefined
   * when it has no `=`, and otherwise the text after the first `=` up to any
   * second `=`.
   */
  lemma PieceFields(param: string)
    ensures Name(param) == param[..IndexOf(param, '=')]
    ensures '=' !in param ==> Name(param) == param && ValueOf(param) == Undefined
    ensures '=' in param ==>
      var after := param[IndexOf(param, '=') + 1..];
      ValueOf(param) == Str(after[..IndexOf(after, '=')])
  {
    SplitFirst(param, '=');
    if '=' in param {
      var after := param[IndexOf(param, '=') + 1..];
      SplitFirst(after, '=');
      assert Split(param, '=')[1] == Split(after, '=')[0];
    }
  }

  /**
   * The reader keeps exactly the recognised names that some piece carries:
   * a name is present when, and only when, it is recognised and named by a
   * piece (an unrecognised name is dropped without error).
   */
  lemma {:induction false} CollectKeys(params: seq<string>, k: string)
    ensures k in Collect(params) <==> k in Recognised && exists i | 0 <= i < |params| :: Name(params[i]) == k
  {
    if |params| > 0 {
      var init := params[..|params| - 1];
      CollectKeys(init, k);
      if exists i | 0 <= i < |init| :: Name(init[i]) == k {
        var i :| 0 <= i < |init| && Name(init[i]) == k;
        assert params[i] == init[i];
      }
      if exists i | 0 <= i < |params| :: Name(params[i]) == k {
        var i :| 0 <= i < |params| && Name(params[i]) == k;
        if i < |init| {
          assert init[i] == params[i];
        }
      }
    }
  }

  /** Of several pieces with the same recognised name, the last one's value is kept. */
  lemma {:induction false} CollectLastWins(params: seq<string>, i: nat)
    requires i < |params| && Name(params[i]) in Recognised
    requires forall j | i < j < |params| :: Name(params[j]) != Name(params[i])
    ensures Name(params[i]) in Collect(params)
    ensures Collect(params)[Name(params[i])] == ValueOf(params[i])
  {
    var init, last := params[..|params| - 1], params[|params| - 1];
    assert Collect(params) == Store(Collect(init), last);
    if i < |params| - 1 {
      assert init[i] == params[i];
      CollectLastWins(init, i);
      assert Name(last) != Name(params[i]);
    }
  }

  /** Every kept value is a string or undefined. */
  lemma {:induction false} CollectValues(params: seq<string>, k: string)
    requires k in Collect(params)
    ensures Collect(params)[k].Str? || Collect(params)[k].Undefined?
  {
    var init := params[..|params| - 1];
    if k != Name(params[|params| - 1]) || Name(params[|params| - 1]) !in Recognised {
      CollectValues(init, k);
    }
  }

  /** Reading succeeds for every query that decodes, and keeps only recognised names. */
  lemma ReaderFailsOnlyOnBadEscape(search: string)
    ensures ReadLaunchParameters(search).Err? <==> Uri.Decode(Query(search)).Err?
    ensures ReadLaunchParameters(search).Ok? ==> ReadLaunchParameters(search).value.Keys <= Recognised
  {
    if ReadLaunchParameters(search).Ok? {
      var pageURL := Uri.Decode(Query(search)).value;
      forall k | k in ReadLaunchParameters(search).value
        ensures k in Recognised
      {
        CollectKeys(Split(pageURL, '&'), k);
      }
    }
  }

  /**
   * Decoding happens once, before splitting: a query whose every character
   * is written as an escape (`%26` for `&`, `%3D` for `=`) reads exactly as
   * the plain query would.
   */
  lemma EscapesActAsSeparators(query: string)
    requires Uri.IsAscii(query)
    ensures ReadLaunchParameters("?" + Uri.EscapeAll(query)) == Ok(Collect(Split(query, '&')))
  {
    Uri.DecodeEscapeAll(query);
    assert Query("?" + Uri.EscapeAll(query)) == Uri.EscapeAll(query);
  }

  /** A query without escapes is split as it stands. */
  lemma PlainQuery(query: string)
    requires '%' !in query
    ensures ReadLaunchParameters("?" + query) == Ok(Collect(Split(query, '&')))
  {
    assert Query("?" + query) == query;
  }
}
