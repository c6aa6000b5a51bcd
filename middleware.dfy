// The gRPC interceptors that every call of the microservice passes through:
// take the consumer from the call's metadata, log the call on the event bus,
// then check the ACL.
module Middleware {
  import opened Outcomes
  import opened GrpcStatus
  import opened Acl
  import opened EventBus

  /** What the interceptor reads from a call: the values of the "consumer"
      metadata key, the peer's address when gRPC knows one, and the clock. */
  datatype CallContext = CallContext(consumers: seq<string>, peerAddr: Option<string>, now: int)

  /** The host logged for a call: the peer address, or "" without a peer. */
  function HostOf(ctx: CallContext): (host: string)
    ensures ctx.peerAddr.Some? ==> host == ctx.peerAddr.value
    ensures ctx.peerAddr.None? ==> host == ""
  {
    ctx.peerAddr.GetOr("")
  }

  /** The event logged for a call; the first consumer value is the consumer. */
  function CallEvent(ctx: CallContext, fullMethod: string): (e: Event)
    requires |ctx.consumers| > 0
    ensures e.consumer == ctx.consumers[0] && e.methodName == fullMethod
    ensures e.host == HostOf(ctx) && e.timestamp == ctx.now
  {
    Event(ctx.now, ctx.consumers[0], fullMethod, HostOf(ctx))
  }

  /** gRPC method names always have the form "/service/method"; ValidateAcl
      relies on that once the consumer is known. */
  predicate Checkable(acl: Data, ctx: CallContext, fullMethod: string) {
    |ctx.consumers| > 0 && ctx.consumers[0] in acl.table ==> HasService(fullMethod)
  }

  /** The verdict of intercept. */
  function Admission(acl: Data, ctx: CallContext, fullMethod: string): Status
    requires Checkable(acl, ctx, fullMethod)
  {
    if |ctx.consumers| == 0 then Error(Unauthenticated, "consumer is empty")
    else ValidateAcl(acl, ctx.consumers[0], fullMethod)
  }

  /** The bus after intercept: the call is published iff it names a consumer. */
  function Logged(b: Bus, ctx: CallContext, fullMethod: string): (r: Bus)
    requires WellFormed(b)
    ensures WellFormed(r)
    ensures |ctx.consumers| == 0 ==> r == b
    ensures |ctx.consumers| > 0 ==> r == Published(b, CallEvent(ctx, fullMethod))
  {
    if |ctx.consumers| == 0 then b else Published(b, CallEvent(ctx, fullMethod))
  }

  /** A call is let through iff it names a consumer whose ACL entry lists the
      full method under the method's service; every refusal is
      Unauthenticated, and a call without a consumer is refused as
      "consumer is empty". */
  lemma AdmissionMeaning(acl: Data, ctx: CallContext, fullMethod: string)
    requires Checkable(acl, ctx, fullMethod)
    ensures Admission(acl, ctx, fullMethod) == OK <==>
              |ctx.consumers| > 0 && ctx.consumers[0] in acl.table &&
              ServiceOf(fullMethod) in acl.table[ctx.consumers[0]] &&
              fullMethod in acl.table[ctx.consumers[0]][ServiceOf(fullMethod)]
    ensures Admission(acl, ctx, fullMethod) != OK ==> Admission(acl, ctx, fullMethod).code == Unauthenticated
    ensures |ctx.consumers| == 0 ==> Admission(acl, ctx, fullMethod).message == "consumer is empty"
  {
    if |ctx.consumers| > 0 {
      var r := ValidateAcl(acl, ctx.consumers[0], fullMethod);
      assert r == OK <==>
        ctx.consumers[0] in acl.table && ServiceOf(fullMethod) in acl.table[ctx.consumers[0]] &&
        fullMethod in acl.table[ctx.consumers[0]][ServiceOf(fullMethod)];
    }
  }

  /** Admission, stated on the raw ACL the server was started with: a call to
      service/method is let through iff its first consumer value is an ACL
      key, the service is Admin or BusinessLogic, the method is one of that
      service's methods, and the consumer's paths grant it by wildcard or
      list it. Extra consumer values play no part. */
  lemma AdmissionOnRawAcl(raw: map<string, seq<string>>, ctx: CallContext, serviceName: string, methodName: string)
    requires AllWellFormed(raw) && |ctx.consumers| > 0
    requires '/' !in serviceName && '/' !in methodName
    ensures Checkable(Data(BuildTable(raw)), ctx, FullMethodName(serviceName, methodName))
    ensures Admission(Data(BuildTable(raw)), ctx, FullMethodName(serviceName, methodName)) == OK <==>
              var consumer := ctx.consumers[0];
              && consumer in raw
              && KnownMethods(serviceName).Some?
              && FullMethodName(serviceName, methodName) in KnownMethods(serviceName).value
              && (HasWildcard(raw[consumer], serviceName) || FullMethodName(serviceName, methodName) in raw[consumer])
  {
    Authorised(raw, ctx.consumers[0], serviceName, methodName);
  }

  class ServiceMiddleware {
    const acl: Data
    const eventSubscribers: EventSubscribersManager

    /** NewMiddleware: both interceptors share the ACL and the registry. */
    constructor (aclData: Data, subscribers: EventSubscribersManager)
      ensures acl == aclData && eventSubscribers == subscribers
    {
      acl := aclData;
      eventSubscribers := subscribers;
    }

    /** intercept: refuse a call without a consumer; otherwise publish the
        call to every subscriber first and then answer with the ACL check,
        so refused calls are logged too. */
    method Intercept(ctx: CallContext, fullMethod: string) returns (err: Status)
      requires eventSubscribers.Valid() && Checkable(acl, ctx, fullMethod)
      modifies eventSubscribers.channels
      ensures eventSubscribers.Valid()
      ensures err == Admission(acl, ctx, fullMethod)
      ensures eventSubscribers.Model() == Logged(old(eventSubscribers.Model()), ctx, fullMethod)
    {
      if |ctx.consumers| == 0 {
        return Error(Unauthenticated, "consumer is empty");
      }
      var consumer := ctx.consumers[0];
      var host := HostOf(ctx);
      eventSubscribers.Notify(Event(ctx.now, consumer, fullMethod, host));
      err := ValidateAcl(acl, consumer, fullMethod);
    }

    /** unaryInterceptor: the handler runs iff intercept lets the call
        through, and its answer is passed on unchanged; otherwise the call
        fails with intercept's error and no response. */
    method UnaryInterceptor<Req, Resp>(ctx: CallContext, req: Req, fullMethod: string,
                                       handler: (CallContext, Req) -> (Option<Resp>, Status))
      returns (resp: Option<Resp>, err: Status, handled: bool)
      requires eventSubscribers.Valid() && Checkable(acl, ctx, fullMethod)
      modifies eventSubscribers.channels
      ensures eventSubscribers.Valid()
      ensures eventSubscribers.Model() == Logged(old(eventSubscribers.Model()), ctx, fullMethod)
      ensures handled <==> Admission(acl, ctx, fullMethod) == OK
      ensures handled ==> (resp, err) == handler(ctx, req)
      ensures !handled ==> resp == None && err == Admission(acl, ctx, fullMethod)
    {
      err := Intercept(ctx, fullMethod);
      if err != OK {
        return None, err, false;
      }
      handled := true;
      resp, err := handler(ctx, req).0, handler(ctx, req).1;
    }

    /** streamInterceptor: the same guard, checked once when the stream
        opens; the stream handler's result is passed on unchanged. */
    method StreamInterceptor<Stream>(ctx: CallContext, stream: Stream, fullMethod: string,
                                     handler: Stream -> Status)
      returns (err: Status, handled: bool)
      requires eventSubscribers.Valid() && Checkable(acl, ctx, fullMethod)
      modifies eventSubscribers.channels
      ensures eventSubscribers.Valid()
      ensures eventSubscribers.Model() == Logged(old(eventSubscribers.Model()), ctx, fullMethod)
      ensures handled <==> Admission(acl, ctx, fullMethod) == OK
      ensures handled ==> err == handler(stream)
      ensures !handled ==> err == Admission(acl, ctx, fullMethod)
    {
      err := Intercept(ctx, fullMethod);
      if err != OK {
        return err, false;
      }
      handled := true;
      err := handler(stream);
    }
  }
}
