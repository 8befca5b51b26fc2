/** The RPC client factory (src/lib/trpc/client.ts): in the browser the first client made is
    kept in a module-level slot and handed out from then on; on the server every call makes a
    new client. */
module TrpcClient {
  import opened Common

  /** The initialisation argument a caller hands to `trpc`, known only by identity. */
  datatype Init = Init(ref: nat)

  /** A client object; `serial` stands for its identity (the n-th client ever created). */
  datatype Client = Client(serial: nat, init: Option<Init>)

  /** The module state: the cached browser client, and how many clients have been created. */
  datatype ClientCache = ClientCache(browserClient: Option<Client>, created: nat)

  /** The result of one `trpc` call: the client returned and the state afterwards. */
  datatype Step = Step(client: Client, next: ClientCache)

  /** One call of `trpc`: its argument and whether it runs in the browser. */
  datatype Call = Call(init: Option<Init>, isBrowser: bool)

  /** A cached client is one that was created earlier. */
  predicate Valid(s: ClientCache) {
    s.browserClient.Some? ==> s.browserClient.value.serial < s.created
  }

  /** A client newly created in state `s` from `init`. */
  predicate IsFresh(c: Client, s: ClientCache, init: Option<Init>) {
    c.serial == s.created && c.init == init
  }

  /** `trpc(init)`. In the browser with a client cached, that client comes back and `init` is
      ignored; otherwise a new client is made from `init`, and stored only in the browser. */
  function TrpcCall(s: ClientCache, init: Option<Init>, isBrowser: bool): (r: Step)
    ensures Valid(s) ==> Valid(r.next)
    ensures Valid(s) && s.browserClient.Some? && !isBrowser ==> r.client != s.browserClient.value
    ensures isBrowser && s.browserClient.Some? ==> r == Step(s.browserClient.value, s)
    ensures !(isBrowser && s.browserClient.Some?) ==>
              IsFresh(r.client, s, init) && r.next.created == s.created + 1
    ensures !isBrowser ==> r.next.browserClient == s.browserClient
    ensures isBrowser ==> r.next.browserClient == Some(r.client)
  {
    if isBrowser && s.browserClient.Some? then
      Step(s.browserClient.value, s)
    else
      var client := Client(s.created, init);
      Step(client, ClientCache(if isBrowser then Some(client) else s.browserClient, s.created + 1))
  }

  /** The state after a sequence of calls, in order. */
  function Run(s: ClientCache, calls: seq<Call>): ClientCache
    decreases |calls|
  {
    if calls == [] then s
    else Run(TrpcCall(s, calls[0].init, calls[0].isBrowser).next, calls[1..])
  }

  predicate AllServer(calls: seq<Call>) {
    forall i :: 0 <= i < |calls| ==> !calls[i].isBrowser
  }

  /** Server-side calls never write the cache, and each creates one client. */
  lemma {:induction false} ServerCallsLeaveCache(s: ClientCache, calls: seq<Call>)
    requires AllServer(calls)
    ensures Run(s, calls).browserClient == s.browserClient
    ensures Run(s, calls).created == s.created + |calls|
    decreases |calls|
  {
    if calls != [] {
      assert AllServer(calls[1..]) by {
        forall i | 0 <= i < |calls[1..]| ensures !calls[1..][i].isBrowser {
          assert calls[1..][i] == calls[i + 1];
        }
      }
      ServerCallsLeaveCache(TrpcCall(s, calls[0].init, calls[0].isBrowser).next, calls[1..]);
    }
  }

  /** After server-side calls only, the first browser call still creates a new client from
      its own `init` and caches it. */
  lemma FirstBrowserCallCreates(s: ClientCache, calls: seq<Call>, init: Option<Init>)
    requires s.browserClient.None? && AllServer(calls)
    ensures var r := TrpcCall(Run(s, calls), init, true);
            r.client == Client(s.created + |calls|, init) && r.next.browserClient == Some(r.client)
  {
    ServerCallsLeaveCache(s, calls);
  }

  /** Once a client is cached, no sequence of calls replaces it, and every later browser
      call returns it whatever its `init`. */
  lemma {:induction false} CachedClientPersists(s: ClientCache, calls: seq<Call>, init: Option<Init>)
    requires s.browserClient.Some?
    ensures Run(s, calls).browserClient == s.browserClient
    ensures TrpcCall(Run(s, calls), init, true).client == s.browserClient.value
    decreases |calls|
  {
    if calls != [] {
      CachedClientPersists(TrpcCall(s, calls[0].init, calls[0].isBrowser).next, calls[1..], init);
    }
  }

  /** The module with its `browserClient` variable; `created` counts the clients made. */
  class ClientModule {
    var browserClient: Option<Client>
    var created: nat

    function Cache(): ClientCache
      reads this
    {
      ClientCache(browserClient, created)
    }

    constructor ()
      ensures Valid(Cache()) && Cache() == ClientCache(None, 0)
    {
      browserClient := None;
      created := 0;
    }

    /** `trpc(init)`, with `isBrowser` standing for `typeof window !== 'undefined'`. */
    method Trpc(init: Option<Init>, isBrowser: bool) returns (client: Client)
      requires Valid(Cache())
      modifies this
      ensures Valid(Cache())
      ensures Step(client, Cache()) == TrpcCall(old(Cache()), init, isBrowser)
    {
      if isBrowser && browserClient.Some? {
        return browserClient.value;
      }
      client := Client(created, init);
      created := created + 1;
      if isBrowser {
        browserClient := Some(client);
      }
    }
  }
}
