/** The Lambda entry point's dispatch: the request is routed on the single
    string HTTPMethod + "|" + PathParameters["method"], and every routed
    handler is given the same table name. */
module Router {

  const TableName: string := "NGOdetails"

  /** The twenty request handlers, five per entity kind. */
  datatype Handler =
    | GetNgo | CreateNgo | UpdateNgo | DeleteNgo | GetNgos
    | GetFundraiserNgo | CreateFundraiserNgo | UpdateFundraiserNgo | DeleteFundraiserNgo | GetFundraisersNgo
    | GetFundraiserIndividual | CreateFundraiserIndividual | UpdateFundraiserIndividual
    | DeleteFundraiserIndividual | GetFundraisersIndividual
    | GetUpdate | CreateUpdate | UpdateUpdate | DeleteUpdate | GetUpdates

  /** What the switch does: call a handler with a table name, or fall through. */
  datatype Call = Invoke(handler: Handler, tableName: string) | UnhandledMethod

  datatype Request = Request(httpMethod: string, pathParameters: map<string, string>)

  /** The (HTTP method, method path parameter) pair each handler answers to. */
  datatype Endpoint = Endpoint(verb: string, name: string)

  function EndpointOf(h: Handler): Endpoint
  {
    match h
    case GetNgo => Endpoint("GET", "getNgo")
    case CreateNgo => Endpoint("POST", "createNgo")
    case UpdateNgo => Endpoint("PUT", "updateNgo")
    case DeleteNgo => Endpoint("DELETE", "deleteNgo")
    case GetNgos => Endpoint("GET", "getNgos")
    case GetFundraiserNgo => Endpoint("GET", "getFundraiserNgo")
    case CreateFundraiserNgo => Endpoint("POST", "createFundraiserNgo")
    case UpdateFundraiserNgo => Endpoint("PUT", "updateFundraiserNgo")
    case DeleteFundraiserNgo => Endpoint("DELETE", "deleteFundraiserNgo")
    case GetFundraisersNgo => Endpoint("GET", "getFundraisersNgo")
    case GetFundraiserIndividual => Endpoint("GET", "getFundraiserIndividual")
    case CreateFundraiserIndividual => Endpoint("POST", "createFundraiserIndividual")
    case UpdateFundraiserIndividual => Endpoint("PUT", "updateFundraiserIndividual")
    case DeleteFundraiserIndividual => Endpoint("DELETE", "deleteFundraiserIndividual")
    case GetFundraisersIndividual => Endpoint("GET", "getFundraisersIndividual")
    case GetUpdate => Endpoint("GET", "getUpdate")
    case CreateUpdate => Endpoint("POST", "createUpdate")
    case UpdateUpdate => Endpoint("PUT", "updateUpdate")
    case DeleteUpdate => Endpoint("DELETE", "deleteUpdate")
    case GetUpdates => Endpoint("GET", "getUpdates")
  }

  /** The string the switch compares against for an endpoint: main.go
      writes each case as the HTTP method, "|" and the method name. */
  function Joined(e: Endpoint): string
  {
    e.verb + "|" + e.name
  }

  /** One `case` of the switch: the endpoint whose joined string it compares
      against, and the handler it calls. */
  datatype Route = Route(endpoint: Endpoint, handler: Handler)

  /** main.go's cases, in the order the switch lists them. */
  const Routes: seq<Route> := [
    Route(Endpoint("GET", "getNgo"), GetNgo),
    Route(Endpoint("POST", "createNgo"), CreateNgo),
    Route(Endpoint("PUT", "updateNgo"), UpdateNgo),
    Route(Endpoint("DELETE", "deleteNgo"), DeleteNgo),
    Route(Endpoint("GET", "getNgos"), GetNgos),
    Route(Endpoint("GET", "getFundraiserNgo"), GetFundraiserNgo),
    Route(Endpoint("POST", "createFundraiserNgo"), CreateFundraiserNgo),
    Route(Endpoint("PUT", "updateFundraiserNgo"), UpdateFundraiserNgo),
    Route(Endpoint("DELETE", "deleteFundraiserNgo"), DeleteFundraiserNgo),
    Route(Endpoint("GET", "getFundraisersNgo"), GetFundraisersNgo),
    Route(Endpoint("GET", "getFundraiserIndividual"), GetFundraiserIndividual),
    Route(Endpoint("POST", "createFundraiserIndividual"), CreateFundraiserIndividual),
    Route(Endpoint("PUT", "updateFundraiserIndividual"), UpdateFundraiserIndividual),
    Route(Endpoint("DELETE", "deleteFundraiserIndividual"), DeleteFundraiserIndividual),
    Route(Endpoint("GET", "getFundraisersIndividual"), GetFundraisersIndividual),
    Route(Endpoint("GET", "getUpdate"), GetUpdate),
    Route(Endpoint("POST", "createUpdate"), CreateUpdate),
    Route(Endpoint("PUT", "updateUpdate"), UpdateUpdate),
    Route(Endpoint("DELETE", "deleteUpdate"), DeleteUpdate),
    Route(Endpoint("GET", "getUpdates"), GetUpdates)
  ]

  /** The `switch` from case `i` on: the first case whose string equals the
      key is taken; past the last case, the default. */
  function SwitchFrom(key: string, i: nat): Call
    requires i <= |Routes|
    decreases |Routes| - i
  {
    if i == |Routes| then UnhandledMethod
    else if key == Joined(Routes[i].endpoint) then Invoke(Routes[i].handler, TableName)
    else SwitchFrom(key, i + 1)
  }

  function Switch(key: string): Call
  {
    SwitchFrom(key, 0)
  }

  /** `handler`: a missing "method" path parameter reads as "". */
  function Dispatch(req: Request): Call
  {
    var name := if "method" in req.pathParameters then req.pathParameters["method"] else "";
    Switch(req.httpMethod + "|" + name)
  }

  predicate PipeFree(s: string)
  {
    forall i :: 0 <= i < |s| ==> s[i] != '|'
  }

  /** An endpoint the join cannot confuse with another: no "|" in either
      half, and a method name that is not empty. */
  predicate Plain(e: Endpoint)
  {
    PipeFree(e.verb) && PipeFree(e.name) && e.name != ""
  }

  /** Joining with "|" loses nothing when the right-hand pair has no "|":
      the only "|" of the joined string fixes where the split is. */
  lemma JoinUnique(a: string, b: string, c: string, d: string)
    requires PipeFree(c) && PipeFree(d)
    requires a + "|" + b == c + "|" + d
    ensures a == c && b == d
  {
    var s := c + "|" + d;
    assert s[|a|] == '|';
    assert a == s[..|a|] == c;
    assert b == s[|a| + 1..] == d;
  }

  /** Distinct plain endpoints have distinct joined strings. */
  lemma JoinedInjective(e1: Endpoint, e2: Endpoint)
    requires Plain(e2)
    ensures Joined(e1) == Joined(e2) ==> e1 == e2
  {
    if Joined(e1) == Joined(e2) {
      JoinUnique(e1.verb, e1.name, e2.verb, e2.name);
    }
  }

  /** Whatever the switch selects, it selects through a case whose string
      equals the key, and always with the table "NGOdetails". */
  lemma {:induction false} SwitchFromSelects(key: string, i: nat)
    requires i <= |Routes|
    ensures SwitchFrom(key, i).Invoke? ==>
      && SwitchFrom(key, i).tableName == TableName
      && exists j :: i <= j < |Routes| && key == Joined(Routes[j].endpoint) && Routes[j].handler == SwitchFrom(key, i).handler
    decreases |Routes| - i
  {
    if i < |Routes| && key != Joined(Routes[i].endpoint) {
      SwitchFromSelects(key, i + 1);
    }
  }

  /** A case whose endpoint no earlier case repeats is taken on its own string. */
  lemma {:induction false} SwitchFromReaches(i: nat, j: nat)
    requires i <= j < |Routes|
    requires Plain(Routes[j].endpoint)
    requires forall k :: i <= k < j ==> Routes[k].endpoint != Routes[j].endpoint
    ensures SwitchFrom(Joined(Routes[j].endpoint), i) == Invoke(Routes[j].handler, TableName)
    decreases j - i
  {
    if i < j {
      JoinedInjective(Routes[i].endpoint, Routes[j].endpoint);
      SwitchFromReaches(i + 1, j);
    }
  }

  // The facts about the twenty literal cases are split one per lemma, and
  // the lemmas about the switch are proved by induction over `Routes`:
  // reasoning about all twenty string literals at once (a `match` on them,
  // or one lemma over every case) costs the verifier far more than twenty
  // small proofs.

  lemma Case0()
    ensures Routes[0] == Route(EndpointOf(GetNgo), GetNgo)
    ensures Plain(Routes[0].endpoint)
  {
  }

  lemma Case1()
    ensures Routes[1] == Route(EndpointOf(CreateNgo), CreateNgo)
    ensures Plain(Routes[1].endpoint)
  {
  }

  lemma First1()
    ensures forall k :: 0 <= k < 1 ==> Routes[k].endpoint != Routes[1].endpoint
  {
  }

  lemma Case2()
    ensures Routes[2] == Route(EndpointOf(UpdateNgo), UpdateNgo)
    ensures Plain(Routes[2].endpoint)
  {
  }

  lemma First2()
    ensures forall k :: 0 <= k < 2 ==> Routes[k].endpoint != Routes[2].endpoint
  {
  }

  lemma Case3()
    ensures Routes[3] == Route(EndpointOf(DeleteNgo), DeleteNgo)
    ensures Plain(Routes[3].endpoint)
  {
  }

  lemma First3()
    ensures forall k :: 0 <= k < 3 ==> Routes[k].endpoint != Routes[3].endpoint
  {
  }

  lemma Case4()
    ensures Routes[4] == Route(EndpointOf(GetNgos), GetNgos)
    ensures Plain(Routes[4].endpoint)
  {
  }

  lemma First4()
    ensures forall k :: 0 <= k < 4 ==> Routes[k].endpoint != Routes[4].endpoint
  {
  }

  lemma Case5()
    ensures Routes[5] == Route(EndpointOf(GetFundraiserNgo), GetFundraiserNgo)
    ensures Plain(Routes[5].endpoint)
  {
  }

  lemma First5()
    ensures forall k :: 0 <= k < 5 ==> Routes[k].endpoint != Routes[5].endpoint
  {
  }

  lemma Case6()
    ensures Routes[6] == Route(EndpointOf(CreateFundraiserNgo), CreateFundraiserNgo)
    ensures Plain(Routes[6].endpoint)
  {
  }

  lemma First6()
    ensures forall k :: 0 <= k < 6 ==> Routes[k].endpoint != Routes[6].endpoint
  {
  }

  lemma Case7()
    ensures Routes[7] == Route(EndpointOf(UpdateFundraiserNgo), UpdateFundraiserNgo)
    ensures Plain(Routes[7].endpoint)
  {
  }

  lemma First7()
    ensures forall k :: 0 <= k < 7 ==> Routes[k].endpoint != Routes[7].endpoint
  {
  }

  lemma Case8()
    ensures Routes[8] == Route(EndpointOf(DeleteFundraiserNgo), DeleteFundraiserNgo)
    ensures Plain(Routes[8].endpoint)
  {
  }

  lemma First8()
    ensures forall k :: 0 <= k < 8 ==> Routes[k].endpoint != Routes[8].endpoint
  {
  }

  lemma Case9()
    ensures Routes[9] == Route(EndpointOf(GetFundraisersNgo), GetFundraisersNgo)
    ensures Plain(Routes[9].endpoint)
  {
  }

  lemma First9()
    ensures forall k :: 0 <= k < 9 ==> Routes[k].endpoint != Routes[9].endpoint
  {
  }

  lemma Case10()
    ensures Routes[10] == Route(EndpointOf(GetFundraiserIndividual), GetFundraiserIndividual)
    ensures Plain(Routes[10].endpoint)
  {
  }

  lemma First10()
    ensures forall k :: 0 <= k < 10 ==> Routes[k].endpoint != Routes[10].endpoint
  {
  }

  lemma Case11()
    ensures Routes[11] == Route(EndpointOf(CreateFundraiserIndividual), CreateFundraiserIndividual)
    ensures Plain(Routes[11].endpoint)
  {
  }

  lemma First11()
    ensures forall k :: 0 <= k < 11 ==> Routes[k].endpoint != Routes[11].endpoint
  {
  }

  lemma Case12()
    ensures Routes[12] == Route(EndpointOf(UpdateFundraiserIndividual), UpdateFundraiserIndividual)
    ensures Plain(Routes[12].endpoint)
  {
  }

  lemma First12()
    ensures forall k :: 0 <= k < 12 ==> Routes[k].endpoint != Routes[12].endpoint
  {
  }

  lemma Case13()
    ensures Routes[13] == Route(EndpointOf(DeleteFundraiserIndividual), DeleteFundraiserIndividual)
    ensures Plain(Routes[13].endpoint)
  {
  }

  lemma First13()
    ensures forall k :: 0 <= k < 13 ==> Routes[k].endpoint != Routes[13].endpoint
  {
  }

  lemma Case14()
    ensures Routes[14] == Route(EndpointOf(GetFundraisersIndividual), GetFundraisersIndividual)
    ensures Plain(Routes[14].endpoint)
  {
  }

  lemma First14()
    ensures forall k :: 0 <= k < 14 ==> Routes[k].endpoint != Routes[14].endpoint
  {
  }

  lemma Case15()
    ensures Routes[15] == Route(EndpointOf(GetUpdate), GetUpdate)
    ensures Plain(Routes[15].endpoint)
  {
  }

  lemma First15()
    ensures forall k :: 0 <= k < 15 ==> Routes[k].endpoint != Routes[15].endpoint
  {
  }

  lemma Case16()
    ensures Routes[16] == Route(EndpointOf(CreateUpdate), CreateUpdate)
    ensures Plain(Routes[16].endpoint)
  {
  }

  lemma First16()
    ensures forall k :: 0 <= k < 16 ==> Routes[k].endpoint != Routes[16].endpoint
  {
  }

  lemma Case17()
    ensures Routes[17] == Route(EndpointOf(UpdateUpdate), UpdateUpdate)
    ensures Plain(Routes[17].endpoint)
  {
  }

  lemma First17()
    ensures forall k :: 0 <= k < 17 ==> Routes[k].endpoint != Routes[17].endpoint
  {
  }

  lemma Case18()
    ensures Routes[18] == Route(EndpointOf(DeleteUpdate), DeleteUpdate)
    ensures Plain(Routes[18].endpoint)
  {
  }

  lemma First18()
    ensures forall k :: 0 <= k < 18 ==> Routes[k].endpoint != Routes[18].endpoint
  {
  }

  lemma Case19()
    ensures Routes[19] == Route(EndpointOf(GetUpdates), GetUpdates)
    ensures Plain(Routes[19].endpoint)
  {
  }

  lemma First19()
    ensures forall k :: 0 <= k < 19 ==> Routes[k].endpoint != Routes[19].endpoint
  {
  }

  /** The shape of main.go's switch: each case compares against its
      handler's endpoint, a plain one, and no case repeats the endpoint of
      an earlier one. */
  lemma RoutesWellFormed(j: nat)
    requires j < |Routes|
    ensures Routes[j].endpoint == EndpointOf(Routes[j].handler)
    ensures Plain(Routes[j].endpoint)
    ensures forall k :: 0 <= k < j ==> Routes[k].endpoint != Routes[j].endpoint
  {
    if j == 0 { Case0(); }
    else if j == 1 { Case1(); First1(); }
    else if j == 2 { Case2(); First2(); }
    else if j == 3 { Case3(); First3(); }
    else if j == 4 { Case4(); First4(); }
    else if j == 5 { Case5(); First5(); }
    else if j == 6 { Case6(); First6(); }
    else if j == 7 { Case7(); First7(); }
    else if j == 8 { Case8(); First8(); }
    else if j == 9 { Case9(); First9(); }
    else if j == 10 { Case10(); First10(); }
    else if j == 11 { Case11(); First11(); }
    else if j == 12 { Case12(); First12(); }
    else if j == 13 { Case13(); First13(); }
    else if j == 14 { Case14(); First14(); }
    else if j == 15 { Case15(); First15(); }
    else if j == 16 { Case16(); First16(); }
    else if j == 17 { Case17(); First17(); }
    else if j == 18 { Case18(); First18(); }
    else if j == 19 { Case19(); First19(); }
  }

  /** Every handler has a case of its own. */
  lemma CaseOf(h: Handler) returns (j: nat)
    ensures j < |Routes| && Routes[j].handler == h
  {
    match h
    case GetNgo => Case0(); j := 0;
    case CreateNgo => Case1(); j := 1;
    case UpdateNgo => Case2(); j := 2;
    case DeleteNgo => Case3(); j := 3;
    case GetNgos => Case4(); j := 4;
    case GetFundraiserNgo => Case5(); j := 5;
    case CreateFundraiserNgo => Case6(); j := 6;
    case UpdateFundraiserNgo => Case7(); j := 7;
    case DeleteFundraiserNgo => Case8(); j := 8;
    case GetFundraisersNgo => Case9(); j := 9;
    case GetFundraiserIndividual => Case10(); j := 10;
    case CreateFundraiserIndividual => Case11(); j := 11;
    case UpdateFundraiserIndividual => Case12(); j := 12;
    case DeleteFundraiserIndividual => Case13(); j := 13;
    case GetFundraisersIndividual => Case14(); j := 14;
    case GetUpdate => Case15(); j := 15;
    case CreateUpdate => Case16(); j := 16;
    case UpdateUpdate => Case17(); j := 17;
    case DeleteUpdate => Case18(); j := 18;
    case GetUpdates => Case19(); j := 19;
  }

  /** Every handler is reached from its own endpoint, whatever other path
      parameters the request carries, and is given the table "NGOdetails". */
  lemma EndpointReachesHandler(h: Handler, req: Request)
    requires req.httpMethod == EndpointOf(h).verb
    requires "method" in req.pathParameters && req.pathParameters["method"] == EndpointOf(h).name
    ensures Dispatch(req) == Invoke(h, TableName)
  {
    var j := CaseOf(h);
    RoutesWellFormed(j);
    SwitchFromReaches(0, j);
  }

  /** Only the twenty endpoints are routed, each to its own handler: any other
      pair, including a known name under the wrong HTTP method, falls through. */
  lemma OnlyEndpointsRoute(req: Request)
    ensures Dispatch(req).Invoke? ==>
      && Dispatch(req).tableName == TableName
      && EndpointOf(Dispatch(req).handler).verb == req.httpMethod
      && "method" in req.pathParameters
      && EndpointOf(Dispatch(req).handler).name == req.pathParameters["method"]
  {
    var name := if "method" in req.pathParameters then req.pathParameters["method"] else "";
    var key := req.httpMethod + "|" + name;
    SwitchFromSelects(key, 0);
    if Switch(key).Invoke? {
      var j :| 0 <= j < |Routes| && key == Joined(Routes[j].endpoint) && Routes[j].handler == Switch(key).handler;
      RoutesWellFormed(j);
      var e := EndpointOf(Switch(key).handler);
      JoinUnique(req.httpMethod, name, e.verb, e.name);
    }
  }

  /** Distinct handlers answer to distinct endpoints. */
  lemma EndpointsDistinct(h1: Handler, h2: Handler)
    ensures EndpointOf(h1) == EndpointOf(h2) ==> h1 == h2
  {
    var e1 := EndpointOf(h1);
    EndpointReachesHandler(h1, Request(e1.verb, map["method" := e1.name]));
    var e2 := EndpointOf(h2);
    EndpointReachesHandler(h2, Request(e2.verb, map["method" := e2.name]));
  }

  /** The example of a right name under the wrong HTTP method. */
  lemma WrongVerbFallsThrough()
    ensures Dispatch(Request("POST", map["method" := "getNgo"])) == UnhandledMethod
  {
    var req := Request("POST", map["method" := "getNgo"]);
    OnlyEndpointsRoute(req);
  }
}
