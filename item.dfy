/** The menu item of pkg/menu/item.go and the JSON object `encoding/json`
    makes of it under the struct tags: `path` and `title` always, `Handler`
    never (`json:"-"`), `description` and `items` only when non-empty
    (`omitempty`). Members appear in field declaration order. */
module MenuItem {
  import opened Wrappers
  import opened Json
  import opened Http

  datatype Item = Item(
    path: string,
    handler: Option<Handler>,
    title: string,
    description: string,
    items: seq<Item>)

  /** The keys an item's JSON object may have. */
  const ItemKeys: set<string> := {"path", "title", "description", "items"}

  /** The object `json.Marshal` produces for `item`. */
  function ToJson(item: Item): (j: Json)
    ensures j.Obj?
    ensures |j.members| >= 2 && j.members[0] == Member("path", Str(item.path))
    ensures j.members[1] == Member("title", Str(item.title))
    ensures HasKey(j, "description") <==> item.description != ""
    ensures HasKey(j, "items") <==> item.items != []
    ensures forall k :: k in Keys(j.members) ==> k in ItemKeys
    decreases item
  {
    var members := [Member("path", Str(item.path)), Member("title", Str(item.title))] + OmitEmpty(item);
    assert Keys(members) == ["path", "title"] + Keys(OmitEmpty(item));
    Obj(members)
  }

  /** The `omitempty` members of an item's object. */
  function OmitEmpty(item: Item): seq<Member>
    decreases item, 0
  {
    (if item.description == "" then [] else [Member("description", Str(item.description))])
    + (if item.items == [] then [] else [Member("items", Arr(ToJsonAll(item.items)))])
  }

  /** The array of a child list: each child serialised by the same rules. */
  function ToJsonAll(items: seq<Item>): (js: seq<Json>)
    ensures |js| == |items|
    ensures forall i :: 0 <= i < |items| ==> js[i] == ToJson(items[i])
    decreases items
  {
    if items == [] then [] else [ToJson(items[0])] + ToJsonAll(items[1..])
  }

  /** What the JSON form keeps of an item: everything but the handlers. */
  function Erase(item: Item): (e: Item)
    ensures e.handler == None
    ensures e.path == item.path && e.title == item.title && e.description == item.description
    ensures e.items == EraseAll(item.items)
    decreases item
  {
    Item(item.path, None, item.title, item.description, EraseAll(item.items))
  }

  function EraseAll(items: seq<Item>): (es: seq<Item>)
    ensures |es| == |items|
    ensures forall i :: 0 <= i < |items| ==> es[i] == Erase(items[i])
    decreases items
  {
    if items == [] then [] else [Erase(items[0])] + EraseAll(items[1..])
  }

  /** The zero `Item` that `json.Unmarshal` fills in. */
  const Zero: Item := Item("", None, "", "", [])

  /** `json.Unmarshal` into an `Item`: members are read in order into the
      matching field, unknown keys are skipped, missing keys keep their zero
      value, and a value of the wrong kind fails. */
  function FromJson(j: Json): Option<Item>
    decreases j
  {
    if j.Obj? then FromMembers(j.members, Zero) else None
  }

  function FromMembers(members: seq<Member>, acc: Item): Option<Item>
    decreases members
  {
    if members == [] then Some(acc)
    else
      var next :- FromMember(members[0].key, members[0].value, acc);
      FromMembers(members[1..], next)
  }

  function FromMember(key: string, value: Json, acc: Item): Option<Item>
    decreases value
  {
    if key == "path" then
      if value.Str? then Some(acc.(path := value.s)) else None
    else if key == "title" then
      if value.Str? then Some(acc.(title := value.s)) else None
    else if key == "description" then
      if value.Str? then Some(acc.(description := value.s)) else None
    else if key == "items" then
      if value.Arr? then
        var children :- FromJsonAll(value.elems);
        Some(acc.(items := children))
      else None
    else Some(acc)
  }

  function FromJsonAll(elems: seq<Json>): Option<seq<Item>>
    decreases elems
  {
    if elems == [] then Some([])
    else
      var first :- FromJson(elems[0]);
      var rest :- FromJsonAll(elems[1..]);
      Some([first] + rest)
  }

  /** Decoding the JSON form gives back the item without its handlers: the
      omitted keys decode to the empty values they were omitted for. */
  lemma {:induction false} RoundTrip(item: Item)
    ensures FromJson(ToJson(item)) == Some(Erase(item))
    decreases item
  {
    RoundTripAll(item.items);
    var members := ToJson(item).members;
    var acc := Zero.(path := item.path).(title := item.title);
    assert FromMember("path", Str(item.path), Zero) == Some(Zero.(path := item.path));
    assert FromMembers(members, Zero) == FromMembers(members[1..], Zero.(path := item.path));
    assert members[2..] == OmitEmpty(item);
    assert FromMembers(members[1..], Zero.(path := item.path)) == FromMembers(members[2..], acc);
    OptionalMembersDecode(item, acc);
  }

  /** The `omitempty` members decode onto the two fields always present. */
  lemma OptionalMembersDecode(item: Item, acc: Item)
    requires acc == Zero.(path := item.path).(title := item.title)
    requires FromJsonAll(ToJsonAll(item.items)) == Some(EraseAll(item.items))
    ensures FromMembers(OmitEmpty(item), acc) == Some(Erase(item))
  {
    var rest := OmitEmpty(item);
    var e := Erase(item);
    var withDesc := acc.(description := item.description);
    var itemsMember := Member("items", Arr(ToJsonAll(item.items)));
    assert FromMember(itemsMember.key, itemsMember.value, withDesc) == Some(e);
    if item.description == "" {
      if item.items == [] {
        assert rest == [];
      } else {
        assert rest == [itemsMember];
        assert FromMembers(rest, acc) == FromMembers(rest[1..], e);
      }
    } else {
      var descMember := Member("description", Str(item.description));
      assert FromMember(descMember.key, descMember.value, acc) == Some(withDesc);
      if item.items == [] {
        assert rest == [descMember];
        assert FromMembers(rest, acc) == FromMembers(rest[1..], withDesc);
      } else {
        assert rest == [descMember, itemsMember];
        assert FromMembers(rest, acc) == FromMembers(rest[1..], withDesc);
        assert FromMembers(rest[1..], withDesc) == FromMembers(rest[2..], e);
      }
    }
  }

  lemma {:induction false} RoundTripAll(items: seq<Item>)
    ensures FromJsonAll(ToJsonAll(items)) == Some(EraseAll(items))
    decreases items
  {
    if items != [] {
      RoundTrip(items[0]);
      RoundTripAll(items[1..]);
      assert ToJsonAll(items)[1..] == ToJsonAll(items[1..]);
    }
  }
}
