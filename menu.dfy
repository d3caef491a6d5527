/** The root menu of pkg/menu/menu.go: its JSON form and the walk that
    hands every item handler to a registration callback. */
module Menu {
  import opened Wrappers
  import opened Json
  import opened Http
  import opened MenuItem

  datatype Menu = Menu(title: string, description: string, version: string, items: seq<Item>)

  const MenuKeys: set<string> := {"title", "description", "version", "items"}

  /** The serialised form of `ToJSON`, which returns the menu itself: `title`
      always, `description`, `version` and `items` only when non-empty. */
  function ToJson(m: Menu): (j: Json)
    ensures j.Obj? && |j.members| >= 1 && j.members[0] == Member("title", Str(m.title))
  {
    Obj([Member("title", Str(m.title))] + MenuOmitEmpty(m))
  }

  /** The keys of the menu's object: `title`, then each `omitempty` field
      exactly when it is non-empty, and nothing else. */
  lemma MenuJsonKeys(m: Menu)
    ensures Keys(ToJson(m).members) ==
      ["title"] + (if m.description == "" then [] else ["description"])
      + (if m.version == "" then [] else ["version"]) + (if m.items == [] then [] else ["items"])
  {
    var title := [Member("title", Str(m.title))];
    var desc := if m.description == "" then [] else [Member("description", Str(m.description))];
    var version := if m.version == "" then [] else [Member("version", Str(m.version))];
    var items := if m.items == [] then [] else [Member("items", Arr(ToJsonAll(m.items)))];
    assert ToJson(m).members == title + desc + version + items;
    assert Keys(title) == ["title"];
    assert Keys(desc) == if m.description == "" then [] else ["description"];
    assert Keys(version) == if m.version == "" then [] else ["version"];
    assert Keys(items) == if m.items == [] then [] else ["items"];
    KeysAppend(title + desc + version, items);
    KeysAppend(title + desc, version);
    KeysAppend(title, desc);
  }

  /** `title` is always emitted, each `omitempty` key exactly when its field
      is non-empty, and no other key. */
  lemma MenuJsonHasKey(m: Menu)
    ensures HasKey(ToJson(m), "title")
    ensures HasKey(ToJson(m), "description") <==> m.description != ""
    ensures HasKey(ToJson(m), "version") <==> m.version != ""
    ensures HasKey(ToJson(m), "items") <==> m.items != []
  {
    MenuJsonKeys(m);
    KeyNamesDistinct();
    OptionalKeys("title", "description", "version", "items", m.description == "", m.version == "", m.items == []);
  }

  /** Membership in a key list made of one fixed key and three optional ones. */
  lemma OptionalKeys(t: string, a: string, b: string, c: string, noA: bool, noB: bool, noC: bool)
    requires t != a && t != b && t != c && a != b && a != c && b != c
    ensures var ks := [t] + (if noA then [] else [a]) + (if noB then [] else [b]) + (if noC then [] else [c]);
      t in ks && (a in ks <==> !noA) && (b in ks <==> !noB) && (c in ks <==> !noC)
  {
  }

  /** There is no key but the four fields' names. */
  lemma MenuJsonKeysKnown(m: Menu)
    ensures forall k :: k in Keys(ToJson(m).members) ==> k in MenuKeys
  {
    MenuJsonKeys(m);
  }

  lemma KeyNamesDistinct()
    ensures "title" != "description" && "title" != "version" && "title" != "items"
    ensures "description" != "version" && "description" != "items" && "version" != "items"
  {
    assert "title"[0] == 't' && "description"[0] == 'd' && "version"[0] == 'v' && "items"[0] == 'i';
  }

  function MenuOmitEmpty(m: Menu): seq<Member> {
    (if m.description == "" then [] else [Member("description", Str(m.description))])
    + (if m.version == "" then [] else [Member("version", Str(m.version))])
    + (if m.items == [] then [] else [Member("items", Arr(ToJsonAll(m.items)))])
  }

  const ZeroMenu: Menu := Menu("", "", "", [])

  /** `json.Unmarshal` into a `Menu`, by the same rules as for an item. */
  function FromJson(j: Json): Option<Menu> {
    if j.Obj? then FromMenuMembers(j.members, ZeroMenu) else None
  }

  function FromMenuMembers(members: seq<Member>, acc: Menu): Option<Menu> {
    if members == [] then Some(acc)
    else
      var next :- FromMenuMember(members[0].key, members[0].value, acc);
      FromMenuMembers(members[1..], next)
  }

  function FromMenuMember(key: string, value: Json, acc: Menu): Option<Menu> {
    if key == "title" then
      if value.Str? then Some(acc.(title := value.s)) else None
    else if key == "description" then
      if value.Str? then Some(acc.(description := value.s)) else None
    else if key == "version" then
      if value.Str? then Some(acc.(version := value.s)) else None
    else if key == "items" then
      if value.Arr? then
        var children :- FromJsonAll(value.elems);
        Some(acc.(items := children))
      else None
    else Some(acc)
  }

  /** The menu's JSON form keeps everything but the item handlers. */
  lemma MenuRoundTrip(m: Menu)
    ensures FromJson(ToJson(m)) == Some(m.(items := EraseAll(m.items)))
  {
    RoundTripAll(m.items);
    var members := ToJson(m).members;
    assert members[1..] == MenuOmitEmpty(m);
    assert FromMenuMember("title", Str(m.title), ZeroMenu) == Some(ZeroMenu.(title := m.title));
    MenuOmitEmptyDecode(m, ZeroMenu.(title := m.title));
  }

  lemma MenuOmitEmptyDecode(m: Menu, acc: Menu)
    requires acc == ZeroMenu.(title := m.title)
    requires FromJsonAll(ToJsonAll(m.items)) == Some(EraseAll(m.items))
    ensures FromMenuMembers(MenuOmitEmpty(m), acc) == Some(m.(items := EraseAll(m.items)))
  {
    var withDesc := acc.(description := m.description);
    var withVersion := withDesc.(version := m.version);
    var e := withVersion.(items := EraseAll(m.items));
    assert e == m.(items := EraseAll(m.items));
    var desc := if m.description == "" then [] else [Member("description", Str(m.description))];
    var version := if m.version == "" then [] else [Member("version", Str(m.version))];
    var items := if m.items == [] then [] else [Member("items", Arr(ToJsonAll(m.items)))];
    assert MenuOmitEmpty(m) == desc + (version + items);
    assert FromMenuMembers(items, withVersion) == Some(e) by {
      if m.items != [] {
        assert FromMenuMembers(items, withVersion) == FromMenuMembers([], e);
      }
    }
    assert FromMenuMembers(version + items, withDesc) == Some(e) by {
      if m.version != "" {
        assert (version + items)[1..] == items;
      }
    }
    if m.description != "" {
      assert (desc + (version + items))[1..] == version + items;
    }
  }

  /** The handler registration `registerItem` performs for one node, if any. */
  function Own(item: Item): seq<Route> {
    if item.handler.Some? then [Route(item.path, item.handler.value)] else []
  }

  /** `registerItem`: the node's own handler first, then its children in order. */
  function RegisterItem(item: Item): (rs: seq<Route>)
    ensures item.handler.Some? ==> |rs| > 0 && rs[0] == Route(item.path, item.handler.value)
    decreases item
  {
    Own(item) + RegisterItems(item.items)
  }

  function RegisterItems(items: seq<Item>): seq<Route>
    decreases items
  {
    if items == [] then [] else RegisterItem(items[0]) + RegisterItems(items[1..])
  }

  /** `RegisterHandlers`: the `(pattern, handler)` arguments of the `register`
      calls, in call order. */
  function RegisterHandlers(m: Menu): (rs: seq<Route>)
    ensures rs == Registrations(PreOrder(m.items))
    ensures |rs| == CountHandlers(m.items)
  {
    WalkIsPreOrder(m.items);
    RegisterCount(m.items);
    RegisterItems(m.items)
  }

  /** The nodes of a forest in pre-order: a node, then its descendants, then
      its later siblings. */
  function PreOrder(items: seq<Item>): (nodes: seq<Item>)
    ensures |nodes| >= |items|
    ensures items != [] ==> nodes[0] == items[0]
    decreases items
  {
    if items == [] then [] else [items[0]] + PreOrder(items[0].items) + PreOrder(items[1..])
  }

  /** The registrations of a flat list of nodes, one per node with a handler. */
  function Registrations(nodes: seq<Item>): seq<Route> {
    if nodes == [] then [] else Own(nodes[0]) + Registrations(nodes[1..])
  }

  /** The number of nodes of a forest that carry a handler. */
  function CountHandlers(items: seq<Item>): nat
    decreases items
  {
    if items == [] then 0
    else (if items[0].handler.Some? then 1 else 0) + CountHandlers(items[0].items) + CountHandlers(items[1..])
  }

  lemma {:induction false} RegistrationsAppend(a: seq<Item>, b: seq<Item>)
    ensures Registrations(a + b) == Registrations(a) + Registrations(b)
  {
    if a == [] {
      assert a + b == b;
    } else {
      assert (a + b)[1..] == a[1..] + b;
      RegistrationsAppend(a[1..], b);
    }
  }

  /** The walk visits the nodes in pre-order and registers exactly those
      with a handler, each under its own path. */
  lemma {:induction false} WalkIsPreOrder(items: seq<Item>)
    ensures RegisterItems(items) == Registrations(PreOrder(items))
    decreases items
  {
    if items != [] {
      WalkIsPreOrder(items[0].items);
      WalkIsPreOrder(items[1..]);
      RegistrationsAppend([items[0]] + PreOrder(items[0].items), PreOrder(items[1..]));
      RegistrationsAppend([items[0]], PreOrder(items[0].items));
      assert Registrations([items[0]]) == Own(items[0]);
    }
  }

  /** Siblings are walked in slice order. */
  lemma {:induction false} RegisterItemsAppend(a: seq<Item>, b: seq<Item>)
    ensures RegisterItems(a + b) == RegisterItems(a) + RegisterItems(b)
  {
    if a == [] {
      assert a + b == b;
    } else {
      assert (a + b)[1..] == a[1..] + b;
      RegisterItemsAppend(a[1..], b);
    }
  }

  /** One `register` call per handler-bearing node of the whole tree. */
  lemma {:induction false} RegisterCount(items: seq<Item>)
    ensures |RegisterItems(items)| == CountHandlers(items)
    decreases items
  {
    if items != [] {
      RegisterCount(items[0].items);
      RegisterCount(items[1..]);
    }
  }

  lemma {:induction false} RegistrationsMember(nodes: seq<Item>, r: Route)
    ensures r in Registrations(nodes) <==>
      exists n :: n in nodes && n.path == r.pattern && n.handler == Some(r.handler)
  {
    if nodes != [] {
      RegistrationsMember(nodes[1..], r);
      assert forall n :: n in nodes <==> n == nodes[0] || n in nodes[1..];
    }
  }

  /** `register(p, h)` is called if and only if some node of the menu has
      path `p` and handler `h`: handlers are never invented or dropped, and
      the pattern is the node's own path, not prefixed by its parents'. */
  lemma RegisteredIff(m: Menu, r: Route)
    ensures r in RegisterHandlers(m) <==>
      exists n :: n in PreOrder(m.items) && n.path == r.pattern && n.handler == Some(r.handler)
  {
    WalkIsPreOrder(m.items);
    RegistrationsMember(PreOrder(m.items), r);
  }

  /** The menu built by cmd/momd/main.go's `makeMenu`, with version "v0.0.0". */
  function SampleMenu(): Menu {
    Menu("Root Menu (vv0.0.0)", "This is the root menu", "v0.0.0", [
      Item("/item1", Some(Func(1)), "Item 1", "This is item 1", []),
      Item("/item2", Some(Func(2)), "Item 2", "This is item 2", [
        Item("/item2/subitem1", Some(Func(3)), "Subitem 1", "This is subitem 1", []),
        Item("/item2/subitem2", Some(Func(4)), "Subitem 2", "This is subitem 2", [])])])
  }

  function Patterns(rs: seq<Route>): (ps: seq<string>)
    ensures |ps| == |rs| && forall i :: 0 <= i < |rs| ==> ps[i] == rs[i].pattern
  {
    if rs == [] then [] else [rs[0].pattern] + Patterns(rs[1..])
  }

  /** The sample walk: a parent with a handler is registered before its children. */
  lemma SampleWalk()
    ensures Patterns(RegisterHandlers(SampleMenu())) == ["/item1", "/item2", "/item2/subitem1", "/item2/subitem2"]
  {
  }
}
