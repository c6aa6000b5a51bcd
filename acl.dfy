// The access-control table of the gRPC microservice: which consumer may call
// which method of which service, built from a JSON object
// `{consumer: ["/service/method" | "/service/*", ...]}` and then queried on
// every call.
module Acl {
  import opened Outcomes
  import opened GoStrings
  import opened GrpcStatus

  const AdminServiceName := "service.Admin"
  const BusinessLogicServiceName := "service.BusinessLogic"

  /** A gRPC full method name, "/service/method". */
  function FullMethodName(serviceName: string, methodName: string): string {
    "/" + serviceName + "/" + methodName
  }

  /** The full method names of the admin service. */
  const AdminServiceMethods: seq<string> :=
    [FullMethodName(AdminServiceName, "Logging"), FullMethodName(AdminServiceName, "Statistics")]

  /** The full method names of the business-logic service. */
  const BusinessLogicMethods: seq<string> :=
    [FullMethodName(BusinessLogicServiceName, "Check"), FullMethodName(BusinessLogicServiceName, "Add"),
     FullMethodName(BusinessLogicServiceName, "Test")]

  /** The table: consumer -> service -> granted full method names. */
  datatype Data = Data(table: map<string, map<string, seq<string>>>)

  /** The known method list of a service, for the two services the switch
      names; None for any other service. */
  function KnownMethods(serviceName: string): (r: Option<seq<string>>)
    ensures r.Some? <==> serviceName in {AdminServiceName, BusinessLogicServiceName}
  {
    if serviceName == AdminServiceName then Some(AdminServiceMethods)
    else if serviceName == BusinessLogicServiceName then Some(BusinessLogicMethods)
    else None
  }

  /** A path that can be indexed at [1] and [2] after splitting on "/";
      anything shorter makes the source panic. */
  predicate WellFormedPath(path: string) {
    |Split(path, '/')| >= 3
  }

  predicate AllWellFormed(raw: map<string, seq<string>>) {
    forall c, k :: c in raw && 0 <= k < |raw[c]| ==> WellFormedPath(raw[c][k])
  }

  predicate HasService(path: string) {
    |Split(path, '/')| >= 2
  }

  function ServiceOf(path: string): string
    requires HasService(path)
  {
    Split(path, '/')[1]
  }

  function MethodOf(path: string): string
    requires WellFormedPath(path)
  {
    Split(path, '/')[2]
  }

  /** One iteration of the inner loop: the effect of one allowed path on the
      consumer's service -> methods map. */
  function AddPath(granted: map<string, seq<string>>, path: string): map<string, seq<string>>
    requires WellFormedPath(path)
  {
    var serviceName := ServiceOf(path);
    match KnownMethods(serviceName)
    case None => granted
    case Some(known) =>
      if MethodOf(path) == "*" then granted[serviceName := known]
      else if path in known then
        granted[serviceName := (if serviceName in granted then granted[serviceName] else []) + [path]]
      else granted
  }

  /** The consumer's map after processing `paths` in order. */
  function Grants(paths: seq<string>): map<string, seq<string>>
    requires forall k :: 0 <= k < |paths| ==> WellFormedPath(paths[k])
  {
    if |paths| == 0 then map[]
    else AddPath(Grants(paths[..|paths| - 1]), paths[|paths| - 1])
  }

  /** The whole table: every consumer of the input, with its grants. */
  function BuildTable(raw: map<string, seq<string>>): (table: map<string, map<string, seq<string>>>)
    requires AllWellFormed(raw)
    ensures table.Keys == raw.Keys
  {
    map c | c in raw :: Grants(raw[c])
  }

  /** The inner loop of NewAclData: one consumer's allowed paths, in order,
      folded into its service -> methods map. A path that splits into fewer
      than three parts makes the indexing at [1] or [2] panic. */
  method ConsumerGrants(allowedMethods: seq<string>) returns (consumerMethods: map<string, seq<string>>, panicked: bool)
    ensures panicked <==> !(forall k :: 0 <= k < |allowedMethods| ==> WellFormedPath(allowedMethods[k]))
    ensures !panicked ==> consumerMethods == Grants(allowedMethods)
  {
    consumerMethods := map[];
    var i := 0;
    while i < |allowedMethods|
      invariant 0 <= i <= |allowedMethods|
      invariant forall k :: 0 <= k < i ==> WellFormedPath(allowedMethods[k])
      invariant forall k :: 0 <= k < i ==> WellFormedPath(allowedMethods[..i][k])
      invariant consumerMethods == Grants(allowedMethods[..i])
    {
      var allowedMethod := allowedMethods[i];
      var split := Split(allowedMethod, '/');
      if |split| < 3 {
        return consumerMethods, true;
      }
      var serviceName := split[1];
      var methodName := split[2];
      assert allowedMethods[..i + 1][..i] == allowedMethods[..i];
      match KnownMethods(serviceName) {
        case None =>
        case Some(known) =>
          if methodName == "*" {
            consumerMethods := consumerMethods[serviceName := known];
          } else if allowedMethod in known {
            var current := if serviceName in consumerMethods then consumerMethods[serviceName] else [];
            consumerMethods := consumerMethods[serviceName := current + [allowedMethod]];
          }
      }
      i := i + 1;
    }
    assert allowedMethods[..|allowedMethods|] == allowedMethods;
    return consumerMethods, false;
  }

  /** How NewAclData ends: the table, the decoder's error returned as is, or
      the index-out-of-range panic on a path with fewer than two "/". */
  datatype AclOutcome = AclReady(data: Data) | DecodeFailed(error: string) | IndexPanic

  /** NewAclData: the decoder's error is returned as is; otherwise the table
      is filled consumer by consumer (in the map's unspecified order) and path
      by path, and panics if any allowed path is too short to index. */
  method NewAclData(decoded: Result<map<string, seq<string>>, string>) returns (r: AclOutcome)
    ensures decoded.Err? ==> r == DecodeFailed(decoded.error)
    ensures decoded.Ok? ==> (r == IndexPanic <==> !AllWellFormed(decoded.value))
    ensures decoded.Ok? && AllWellFormed(decoded.value) ==> r == AclReady(Data(BuildTable(decoded.value)))
  {
    if decoded.Err? {
      return DecodeFailed(decoded.error);
    }
    var raw := decoded.value;
    var converted: map<string, map<string, seq<string>>> := map[];
    var pending := raw.Keys;
    while pending != {}
      invariant pending <= raw.Keys
      invariant converted.Keys == raw.Keys - pending
      invariant forall c :: c in converted ==>
                  (forall k :: 0 <= k < |raw[c]| ==> WellFormedPath(raw[c][k])) && converted[c] == Grants(raw[c])
      decreases pending
    {
      var consumer :| consumer in pending;
      var consumerMethods, panicked := ConsumerGrants(raw[consumer]);
      if panicked {
        return IndexPanic;
      }
      converted := converted[consumer := consumerMethods];
      pending := pending - {consumer};
    }
    return AclReady(Data(converted));
  }

  /** ["logger"] and ["/main.Admin"] are too short to index: NewAclData
      panics on them. */
  lemma ShortPathsPanic()
    ensures !WellFormedPath("logger") && !WellFormedPath("/main.Admin")
  {
    NoSlash("logger");
    OneSlash("main.Admin");
  }

  lemma NoSlash(s: string)
    requires '/' !in s
    ensures !WellFormedPath(s)
  {
    IndexOfAbsent(s, '/');
  }

  lemma OneSlash(s: string)
    requires '/' !in s
    ensures !WellFormedPath("/" + s)
  {
    IndexOfAbsent(s, '/');
    SplitFirst("", '/', s);
    assert "" + ['/'] + s == "/" + s;
  }

  /** ValidateAcl: the three-step exact-membership check. The path is split
      only once the consumer is known, so only then must it have a service
      part. */
  function ValidateAcl(data: Data, consumer: string, fullMethod: string): (r: Status)
    requires consumer in data.table ==> HasService(fullMethod)
    ensures consumer !in data.table ==> r == Error(Unauthenticated, "unknown consumer")
    ensures consumer in data.table && ServiceOf(fullMethod) !in data.table[consumer] ==>
              r == Error(Unauthenticated, "forbidden")
    ensures r == OK <==>
              consumer in data.table && ServiceOf(fullMethod) in data.table[consumer] &&
              fullMethod in data.table[consumer][ServiceOf(fullMethod)]
    ensures r != OK ==> r.code == Unauthenticated
  {
    if consumer !in data.table then Error(Unauthenticated, "unknown consumer")
    else
      var accessibleClasses := data.table[consumer];
      var serviceName := ServiceOf(fullMethod);
      if serviceName !in accessibleClasses then Error(Unauthenticated, "forbidden")
      else if fullMethod !in accessibleClasses[serviceName] then Error(Unauthenticated, "access forbidden")
      else OK
  }

  // ---------------------------------------------------------------------
  // What the table means

  /** Some path of the list grants the whole service by wildcard. */
  predicate HasWildcard(paths: seq<string>, serviceName: string)
    requires forall k :: 0 <= k < |paths| ==> WellFormedPath(paths[k])
  {
    exists k :: 0 <= k < |paths| && MethodOf(paths[k]) == "*" && ServiceOf(paths[k]) == serviceName
  }

  /** The granted set for a known service: the whole list after a wildcard,
      else the listed paths that the known list contains. */
  ghost function GrantedSet(paths: seq<string>, serviceName: string, known: seq<string>): set<string>
    requires forall k :: 0 <= k < |paths| ==> WellFormedPath(paths[k])
  {
    if HasWildcard(paths, serviceName) then set m | m in known
    else set p | p in paths && p in known
  }

  /** A known service gets an entry exactly when the list names it by
      wildcard or names one of its methods. */
  predicate Mentions(paths: seq<string>, serviceName: string, known: seq<string>)
    requires forall k :: 0 <= k < |paths| ==> WellFormedPath(paths[k])
  {
    HasWildcard(paths, serviceName) || exists p :: p in paths && p in known
  }

  lemma KnownListsServe(serviceName: string, path: string)
    requires KnownMethods(serviceName).Some? && path in KnownMethods(serviceName).value
    ensures HasService(path) && ServiceOf(path) == serviceName
  {
    ServiceNamesPlain();
    FullMethodParts(AdminServiceName, "Logging");
    FullMethodParts(AdminServiceName, "Statistics");
    FullMethodParts(BusinessLogicServiceName, "Check");
    FullMethodParts(BusinessLogicServiceName, "Add");
    FullMethodParts(BusinessLogicServiceName, "Test");
  }

  /** "/service/method" splits into "", the service and the method. */
  lemma FullMethodParts(serviceName: string, methodName: string)
    requires '/' !in serviceName && '/' !in methodName
    ensures WellFormedPath(FullMethodName(serviceName, methodName))
    ensures ServiceOf(FullMethodName(serviceName, methodName)) == serviceName
    ensures MethodOf(FullMethodName(serviceName, methodName)) == methodName
  {
    SplitPath(serviceName, methodName);
  }

  /** Appending one path adds a wildcard for a service exactly when that path
      is one. */
  lemma HasWildcardSnoc(init: seq<string>, last: string, serviceName: string)
    requires forall k :: 0 <= k < |init| ==> WellFormedPath(init[k])
    requires WellFormedPath(last)
    ensures forall k :: 0 <= k < |init + [last]| ==> WellFormedPath((init + [last])[k])
    ensures HasWildcard(init + [last], serviceName) <==>
              HasWildcard(init, serviceName) || (MethodOf(last) == "*" && ServiceOf(last) == serviceName)
  {
    var paths := init + [last];
    assert forall k :: 0 <= k < |init| ==> paths[k] == init[k];
    assert paths[|init|] == last;
    if HasWildcard(paths, serviceName) {
      var k :| 0 <= k < |paths| && MethodOf(paths[k]) == "*" && ServiceOf(paths[k]) == serviceName;
      if k < |init| { assert init[k] == paths[k]; }
    }
  }

  /** The set semantics of one consumer's grants: a service gets an entry
      exactly when it is known and the list names it by wildcard or names one
      of its methods, and as a set the entry is the whole known list after a
      wildcard, else the listed paths that the known list contains. */
  lemma {:induction false} GrantsMeaning(paths: seq<string>, serviceName: string)
    requires forall k :: 0 <= k < |paths| ==> WellFormedPath(paths[k])
    ensures KnownMethods(serviceName).None? ==> serviceName !in Grants(paths)
    ensures KnownMethods(serviceName).Some? ==>
              var known := KnownMethods(serviceName).value;
              (serviceName in Grants(paths) <==> Mentions(paths, serviceName, known)) &&
              (serviceName in Grants(paths) ==>
                 (set m | m in Grants(paths)[serviceName]) == GrantedSet(paths, serviceName, known))
    decreases |paths|
  {
    if |paths| > 0 {
      var init := paths[..|paths| - 1];
      var last := paths[|paths| - 1];
      assert paths == init + [last];
      GrantsMeaning(init, serviceName);
      HasWildcardSnoc(init, last, serviceName);
      if KnownMethods(serviceName).Some? {
        GrantsStep(init, last, serviceName);
      }
    }
  }

  /** What GrantsMeaning states of one list and one known service. */
  ghost predicate GrantsAgree(paths: seq<string>, serviceName: string, known: seq<string>)
    requires forall k :: 0 <= k < |paths| ==> WellFormedPath(paths[k])
  {
    (serviceName in Grants(paths) <==> Mentions(paths, serviceName, known)) &&
    (serviceName in Grants(paths) ==>
       (set m | m in Grants(paths)[serviceName]) == GrantedSet(paths, serviceName, known))
  }

  /** The inductive step of GrantsMeaning, for a known service. */
  lemma GrantsStep(init: seq<string>, last: string, serviceName: string)
    requires forall k :: 0 <= k < |init| ==> WellFormedPath(init[k])
    requires WellFormedPath(last)
    requires KnownMethods(serviceName).Some?
    requires GrantsAgree(init, serviceName, KnownMethods(serviceName).value)
    ensures forall k :: 0 <= k < |init + [last]| ==> WellFormedPath((init + [last])[k])
    ensures GrantsAgree(init + [last], serviceName, KnownMethods(serviceName).value)
  {
    var paths := init + [last];
    var known := KnownMethods(serviceName).value;
    HasWildcardSnoc(init, last, serviceName);
    assert paths[..|paths| - 1] == init;
    assert Grants(paths) == AddPath(Grants(init), last);
    if last in known {
      KnownListsServe(serviceName, last);
    }
    if ServiceOf(last) != serviceName {
      StepOtherService(init, last, serviceName, known);
    } else if MethodOf(last) == "*" {
      assert Grants(paths)[serviceName] == known;
    } else if last in known {
      StepExplicit(init, last, serviceName, known);
    } else {
      StepOtherService(init, last, serviceName, known);
    }
  }

  /** The elements of a list with one more at the end. */
  lemma ElementsSnoc(xs: seq<string>, x: string)
    ensures (set m | m in xs + [x]) == (set m | m in xs) + {x}
  {
    assert forall m :: m in xs + [x] <==> m in xs || m == x;
  }

  /** The listed known paths of a list with one more path at the end. */
  lemma ListedSnoc(init: seq<string>, last: string, known: seq<string>)
    ensures last in known ==>
              (set p | p in init + [last] && p in known) == (set p | p in init && p in known) + {last}
    ensures last !in known ==>
              (set p | p in init + [last] && p in known) == (set p | p in init && p in known)
    ensures (exists p :: p in init + [last] && p in known) <==>
              (exists p :: p in init && p in known) || last in known
  {
    assert forall p :: p in init + [last] <==> p in init || p == last;
  }

  /** A path that does not grant anything of the service leaves its entry. */
  lemma StepOtherService(init: seq<string>, last: string, serviceName: string, known: seq<string>)
    requires forall k :: 0 <= k < |init| ==> WellFormedPath(init[k])
    requires WellFormedPath(last)
    requires forall k :: 0 <= k < |init + [last]| ==> WellFormedPath((init + [last])[k])
    requires GrantsAgree(init, serviceName, known)
    requires last !in known && !(MethodOf(last) == "*" && ServiceOf(last) == serviceName)
    requires HasWildcard(init + [last], serviceName) == HasWildcard(init, serviceName)
    requires var g := Grants(init + [last]); var g0 := Grants(init);
             (serviceName in g <==> serviceName in g0) && (serviceName in g ==> g[serviceName] == g0[serviceName])
    ensures GrantsAgree(init + [last], serviceName, known)
  {
    ListedSnoc(init, last, known);
  }

  /** An explicit known method of the service is appended to its entry. */
  lemma StepExplicit(init: seq<string>, last: string, serviceName: string, known: seq<string>)
    requires forall k :: 0 <= k < |init| ==> WellFormedPath(init[k])
    requires forall k :: 0 <= k < |init + [last]| ==> WellFormedPath((init + [last])[k])
    requires GrantsAgree(init, serviceName, known)
    requires last in known
    requires HasWildcard(init + [last], serviceName) == HasWildcard(init, serviceName)
    requires var g := Grants(init + [last]); var g0 := Grants(init);
             serviceName in g && g[serviceName] == (if serviceName in g0 then g0[serviceName] else []) + [last]
    ensures GrantsAgree(init + [last], serviceName, known)
  {
    var paths := init + [last];
    var g0 := Grants(init);
    var before := if serviceName in g0 then g0[serviceName] else [];
    var listed := set p | p in init && p in known;
    ListedSnoc(init, last, known);
    ElementsSnoc(before, last);
    var now := set m | m in Grants(paths)[serviceName];
    assert now == (set m | m in before) + {last};
    assert Mentions(paths, serviceName, known) by {
      assert last in paths && last in known;
    }
    if HasWildcard(init, serviceName) {
      assert serviceName in g0 && (set m | m in before) == (set m | m in known);
      assert now == GrantedSet(paths, serviceName, known);
    } else {
      assert GrantedSet(paths, serviceName, known) == listed + {last};
      if serviceName in g0 {
        assert (set m | m in before) == listed;
      } else {
        assert listed == {} by {
          assert !exists p :: p in init && p in known;
        }
        assert (set m | m in before) == {};
      }
    }
  }

  /** Entry order does not matter: two lists with the same elements grant the
      same set of methods for every service. */
  lemma GrantsOrderIrrelevant(ps: seq<string>, qs: seq<string>, serviceName: string)
    requires forall k :: 0 <= k < |ps| ==> WellFormedPath(ps[k])
    requires forall k :: 0 <= k < |qs| ==> WellFormedPath(qs[k])
    requires forall p :: p in ps <==> p in qs
    ensures serviceName in Grants(ps) <==> serviceName in Grants(qs)
    ensures serviceName in Grants(ps) ==>
              (set m | m in Grants(ps)[serviceName]) == (set m | m in Grants(qs)[serviceName])
  {
    GrantsMeaning(ps, serviceName);
    GrantsMeaning(qs, serviceName);
    if KnownMethods(serviceName).Some? {
      var known := KnownMethods(serviceName).value;
      assert HasWildcard(ps, serviceName) <==> HasWildcard(qs, serviceName) by {
        if HasWildcard(ps, serviceName) {
          var k :| 0 <= k < |ps| && ServiceOf(ps[k]) == serviceName && MethodOf(ps[k]) == "*";
          assert ps[k] in qs;
          var j :| 0 <= j < |qs| && qs[j] == ps[k];
        }
        if HasWildcard(qs, serviceName) {
          var k :| 0 <= k < |qs| && ServiceOf(qs[k]) == serviceName && MethodOf(qs[k]) == "*";
          assert qs[k] in ps;
          var j :| 0 <= j < |ps| && ps[j] == qs[k];
        }
      }
    }
  }

  /** A path whose service is unknown, or an explicit method the known list
      lacks, can be dropped from anywhere in the list without changing the
      table. */
  predicate Skipped(path: string)
    requires WellFormedPath(path)
  {
    match KnownMethods(ServiceOf(path))
    case None => true
    case Some(known) => MethodOf(path) != "*" && path !in known
  }

  lemma {:induction false} SkippedPathAddsNothing(paths: seq<string>, i: nat)
    requires forall k :: 0 <= k < |paths| ==> WellFormedPath(paths[k])
    requires i < |paths| && Skipped(paths[i])
    ensures Grants(paths[..i] + paths[i + 1..]) == Grants(paths)
    decreases |paths|
  {
    var dropped := paths[..i] + paths[i + 1..];
    if i == |paths| - 1 {
      assert dropped == paths[..|paths| - 1];
    } else {
      var init := paths[..|paths| - 1];
      SkippedPathAddsNothing(init, i);
      assert dropped[..|dropped| - 1] == init[..i] + init[i + 1..];
      assert dropped[|dropped| - 1] == paths[|paths| - 1];
    }
  }

  /** End to end: for a call "/service/method", the check built from the
      decoded input succeeds exactly when the consumer is listed and either
      names the service by wildcard or lists the path, and the path is one of
      the service's known methods. */
  lemma Authorised(raw: map<string, seq<string>>, consumer: string, serviceName: string, methodName: string)
    requires AllWellFormed(raw)
    requires '/' !in serviceName && '/' !in methodName
    ensures var path := FullMethodName(serviceName, methodName);
            HasService(path) &&
            (ValidateAcl(Data(BuildTable(raw)), consumer, path) == OK <==>
               consumer in raw && KnownMethods(serviceName).Some? &&
               path in KnownMethods(serviceName).value &&
               (HasWildcard(raw[consumer], serviceName) || path in raw[consumer]))
  {
    var path := FullMethodName(serviceName, methodName);
    SplitPath(serviceName, methodName);
    assert ServiceOf(path) == serviceName;
    if consumer in raw {
      var paths := raw[consumer];
      GrantsMeaning(paths, serviceName);
      var g := Grants(paths);
      assert BuildTable(raw)[consumer] == g;
      if KnownMethods(serviceName).Some? {
        var known := KnownMethods(serviceName).value;
        if serviceName in g {
          assert path in g[serviceName] <==> path in GrantedSet(paths, serviceName, known);
        }
        if path in known && path in paths {
          assert Mentions(paths, serviceName, known);
        }
      }
    }
  }

  /** Every consumer key gets an entry, even one all of whose paths were
      skipped; no other key does. */
  lemma EveryConsumerListed(raw: map<string, seq<string>>)
    requires AllWellFormed(raw)
    ensures BuildTable(raw).Keys == raw.Keys
    ensures forall c :: c in raw ==> BuildTable(raw)[c].Keys <= {AdminServiceName, BusinessLogicServiceName}
  {
    forall c, s | c in raw && s in BuildTable(raw)[c]
      ensures s in {AdminServiceName, BusinessLogicServiceName}
    {
      GrantsMeaning(raw[c], s);
    }
  }

  /** The two service names are plain names, and differ. */
  lemma ServiceNamesPlain()
    ensures '/' !in AdminServiceName && '/' !in BusinessLogicServiceName
    ensures AdminServiceName != BusinessLogicServiceName
  {
    assert AdminServiceName[8] == 'A' && BusinessLogicServiceName[8] == 'B';
  }
}
