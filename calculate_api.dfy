/** The request handler of the `/api/calculate` endpoint
    (src/pages/api/calculate.js). */
module CalculateApi {
  import opened Wrappers

  /** A request: its method (`req.method`) and its JSON body, each field held as the text
      `parseFloat` reads (it converts its argument to a string first). */
  datatype Request = Request(verb: string, body: map<string, string>)

  /** The JSON bodies the handler sends. `TotalBody(None)` is the NaN total. */
  datatype Body =
    | TotalBody(totalEmissions: Option<real>)
    | MessageBody(message: string)

  /** The one response of a call: a status code and a JSON body. */
  datatype Response = Response(status: int, body: Body)

  /** `parseFloat(body[name])`: a missing field is `undefined`, which parses to NaN. */
  function ParseField(body: map<string, string>, name: string, parse: string -> Option<real>): Option<real>
  {
    if name in body then parse(body[name]) else None
  }

  /** Addition on numbers that may be NaN: NaN plus anything is NaN. */
  function Add(a: Option<real>, b: Option<real>): Option<real>
  {
    if a.Some? && b.Some? then Some(a.value + b.value) else None
  }

  /** `handler(req, res)`, with `parseFloat` as the parameter `parse`. */
  function Handler(req: Request, parse: string -> Option<real>): (res: Response)
    ensures req.verb == "POST" ==> res.status == 200 && res.body.TotalBody?
    ensures req.verb != "POST" ==> res == Response(405, MessageBody("Method not allowed"))
  {
    if req.verb == "POST" then
      var excavation := ParseField(req.body, "excavation", parse);
      var transportation := ParseField(req.body, "transportation", parse);
      var equipment := ParseField(req.body, "equipment", parse);
      Response(200, TotalBody(Add(Add(excavation, transportation), equipment)))
    else
      Response(405, MessageBody("Method not allowed"))
  }

  /** A POST's total is the plain, unweighted sum of the three parsed fields,
      and a number exactly when all three parse. */
  lemma PostTotalIsUnweightedSum(body: map<string, string>, parse: string -> Option<real>)
    ensures var t := Handler(Request("POST", body), parse).body.totalEmissions;
      var e := ParseField(body, "excavation", parse);
      var tr := ParseField(body, "transportation", parse);
      var q := ParseField(body, "equipment", parse);
      && (t.Some? <==> e.Some? && tr.Some? && q.Some?)
      && (t.Some? ==> t.value == e.value + tr.value + q.value)
  {
  }

  /** A POST whose body lacks one of the three fields answers 200 with a NaN
      total, not with an error. */
  lemma MissingFieldGivesNaN(body: map<string, string>, parse: string -> Option<real>, name: string)
    requires name in {"excavation", "transportation", "equipment"} && name !in body
    ensures Handler(Request("POST", body), parse) == Response(200, TotalBody(None))
  {
  }

  /** Any other method gets the same 405 answer whatever the body and the
      parser: nothing is summed. */
  lemma OtherMethodsIgnoreBody(m: string, b1: map<string, string>, b2: map<string, string>,
                               p1: string -> Option<real>, p2: string -> Option<real>)
    requires m != "POST"
    ensures Handler(Request(m, b1), p1) == Handler(Request(m, b2), p2)
    ensures Handler(Request(m, b1), p1).status == 405
  {
  }

  /** A parser that reads only "1", "2" and "3", enough for the examples. */
  function DigitParse(s: string): Option<real>
  {
    if s == "1" then Some(1.0) else if s == "2" then Some(2.0) else if s == "3" then Some(3.0) else None
  }

  /** POST with "1", "2", "3" answers 200 with total 6; with "a" in place of
      "1" it answers 200 with a NaN total; GET answers 405. */
  lemma HandlerExamples()
    ensures Handler(Request("POST", map["excavation" := "1", "transportation" := "2", "equipment" := "3"]), DigitParse)
      == Response(200, TotalBody(Some(6.0)))
    ensures Handler(Request("POST", map["excavation" := "a", "transportation" := "2", "equipment" := "3"]), DigitParse)
      == Response(200, TotalBody(None))
    ensures Handler(Request("GET", map[]), DigitParse) == Response(405, MessageBody("Method not allowed"))
  {
  }
}
