/** `Menu.Run` of pkg/menu/runner.go: the caller's server options, then the
    root handler serving the menu document, then one handler option per
    `register` call of the walk; a server built from that list is served. */
module Runner {
  import opened Wrappers
  import opened Http
  import Menu
  import Server

  /** The handler `Menu.Handler` returns: it answers with the menu's JSON. */
  function RootHandler(m: Menu.Menu): Handler {
    MenuDocument(Menu.ToJson(m))
  }

  /** One `server.WithHandler(pattern, h)` per registration, in order. */
  function HandlerOptions(rs: seq<Route>): (os: seq<Server.ServerOption>)
    ensures |os| == |rs|
    ensures forall i :: 0 <= i < |rs| ==> os[i] == Server.WithHandler(rs[i].pattern, rs[i].handler)
    decreases |rs|
  {
    if rs == [] then []
    else HandlerOptions(rs[..|rs| - 1]) + [Server.WithHandler(rs[|rs| - 1].pattern, rs[|rs| - 1].handler)]
  }

  /** The list `Run` hands to `server.New`. A nil list and an empty one are
      the same sequence here. */
  function OptionList(m: Menu.Menu, opts: seq<Server.ServerOption>): seq<Server.ServerOption> {
    opts + [Server.WithHandler("/", RootHandler(m))] + HandlerOptions(Menu.RegisterHandlers(m))
  }

  /** The appends of `Run`: the root handler, then the `register` callback
      once per handler of the walk. */
  method AssembleOptions(m: Menu.Menu, opts: seq<Server.ServerOption>) returns (list: seq<Server.ServerOption>)
    ensures list == OptionList(m, opts)
  {
    list := opts;
    list := list + [Server.WithHandler("/", RootHandler(m))];
    var rs := Menu.RegisterHandlers(m);
    var i := 0;
    while i < |rs|
      invariant 0 <= i <= |rs|
      invariant list == opts + [Server.WithHandler("/", RootHandler(m))] + HandlerOptions(rs[..i])
    {
      assert rs[..i + 1][..i] == rs[..i];
      list := list + [Server.WithHandler(rs[i].pattern, rs[i].handler)];
      i := i + 1;
    }
    assert rs[..i] == rs;
  }

  /** The list keeps the caller's options first and unchanged, puts the root
      handler right after them, and then holds one option per
      handler-bearing node. */
  lemma OptionListShape(m: Menu.Menu, opts: seq<Server.ServerOption>)
    ensures |OptionList(m, opts)| == |opts| + 1 + Menu.CountHandlers(m.items)
    ensures OptionList(m, opts)[..|opts|] == opts
    ensures OptionList(m, opts)[|opts|] == Server.WithHandler("/", RootHandler(m))
  {
    Menu.RegisterCount(m.items);
    var head := opts + [Server.WithHandler("/", RootHandler(m))];
    assert OptionList(m, opts)[..|opts|] == head[..|opts|];
  }

  /** After the root handler, the handler options follow the walk order. */
  lemma OptionListHandlers(m: Menu.Menu, opts: seq<Server.ServerOption>, i: nat)
    requires i < |Menu.RegisterHandlers(m)|
    ensures |opts| + 1 + i < |OptionList(m, opts)|
    ensures OptionList(m, opts)[|opts| + 1 + i]
        == Server.WithHandler(Menu.RegisterHandlers(m)[i].pattern, Menu.RegisterHandlers(m)[i].handler)
  {
    var head := opts + [Server.WithHandler("/", RootHandler(m))];
    var hs := HandlerOptions(Menu.RegisterHandlers(m));
    assert OptionList(m, opts)[|head| + i] == hs[i];
  }

  lemma {:induction false} HandlerRoutes(rs: seq<Route>)
    ensures Server.RoutesOfAll(HandlerOptions(rs)) == rs
    decreases |rs|
  {
    if rs != [] {
      var n := |rs| - 1;
      var os := HandlerOptions(rs);
      assert os[..|os| - 1] == HandlerOptions(rs[..n]);
      HandlerRoutes(rs[..n]);
      assert rs[..n] + [rs[n]] == rs;
    }
  }

  /** Handler options write no field. */
  lemma HandlersKeepFields(c: Server.Config, rs: seq<Route>, f: Server.Field)
    ensures Server.Get(Server.ApplyAll(c, HandlerOptions(rs)), f) == Server.Get(c, f)
  {
    Server.LastOptionWins(c, HandlerOptions(rs), f);
    assert Server.LastSetter(HandlerOptions(rs), f).None?;
  }

  /** The menu's handlers never override the caller's settings: port,
      timeouts, header limit and TLS are those the caller's options give. */
  lemma CallerSettingsKept(m: Menu.Menu, opts: seq<Server.ServerOption>, f: Server.Field)
    ensures Server.Get(Server.ApplyAll(Server.Defaults(), OptionList(m, opts)), f)
         == Server.Get(Server.ApplyAll(Server.Defaults(), opts), f)
  {
    var root := Route("/", RootHandler(m));
    var rs := [root] + Menu.RegisterHandlers(m);
    assert HandlerOptions([root]) == [Server.WithHandler("/", RootHandler(m))];
    assert HandlerOptions(rs) == [Server.WithHandler("/", RootHandler(m))] + HandlerOptions(Menu.RegisterHandlers(m));
    assert OptionList(m, opts) == opts + HandlerOptions(rs);
    Server.ApplyAllAppend(Server.Defaults(), opts, HandlerOptions(rs));
    HandlersKeepFields(Server.ApplyAll(Server.Defaults(), opts), rs, f);
  }

  /** The server's mux receives the caller's routes, then "/" for the menu
      document, then the walk's registrations in order. */
  lemma ServerRoutes(m: Menu.Menu, opts: seq<Server.ServerOption>)
    ensures Server.ApplyAll(Server.Defaults(), OptionList(m, opts)).routes
         == Server.RoutesOfAll(opts) + [Route("/", RootHandler(m))] + Menu.RegisterHandlers(m)
  {
    var root := Server.WithHandler("/", RootHandler(m));
    var hs := HandlerOptions(Menu.RegisterHandlers(m));
    Server.RoutesInOrder(Server.Defaults(), OptionList(m, opts));
    Server.RoutesOfAllAppend(opts + [root], hs);
    Server.RoutesOfAllAppend(opts, [root]);
    assert Server.RoutesOfAll([root]) == [Route("/", RootHandler(m))] by {
      assert [root][..0] == [];
    }
    HandlerRoutes(Menu.RegisterHandlers(m));
  }

  /** `Run`: build the options, create the server and serve it. Its result is
      what `Serve` returns for a server made from the caller's options alone:
      the menu's handlers never decide whether serving fails. */
  method Run(m: Menu.Menu, opts: seq<Server.ServerOption>, bind: Server.IoResult, cert: Server.CertResult,
             served: Server.ServeEnd, shutdown: Server.IoResult)
    returns (err: Option<Server.ServeError>)
    ensures err == Server.ServeResult(Server.ApplyAll(Server.Defaults(), OptionList(m, opts)), bind, cert, served)
    ensures err == Server.ServeResult(Server.ApplyAll(Server.Defaults(), opts), bind, cert, served)
  {
    var list := AssembleOptions(m, opts);
    var s := new Server.Server.New(list);
    err := s.Serve(bind, cert, served, shutdown);
    CallerSettingsKept(m, opts, Server.Tls);
  }
}
