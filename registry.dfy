/** The bot registry: the business bot modules by type, kept in the order in
    which each type was first registered, with the metadata the bots route
    lists. */
module BotRegistry {
  import opened Wrappers
  import opened Text

  /** A handler module, named by the file it is loaded from. */
  datatype Handler = Handler(path: string)

  /** The `meta` argument of `registerBot`. An empty string stands for a
      missing (falsy) name or description, `None` for a missing command list. */
  datatype MetaArg = MetaArg(name: string, description: string, commands: Option<seq<string>>)

  /** `meta = {}` */
  const NoMeta := MetaArg("", "", None)

  datatype Meta = Meta(name: string, description: string, commands: seq<string>)

  /** A registry value: `{ type, handler, meta }`. */
  datatype Registration = Registration(botType: string, handler: Handler, meta: Meta)

  /** One element of `listBots()`. */
  datatype BotInfo = BotInfo(botType: string, name: string, description: string, commands: seq<string>)

  const DefaultDescription := "No description provided"
  const BotSuffix := " Bot"
  const NoHandlerHead := "Cannot register bot \""
  const NoHandlerTail := "\" without a handler module"

  /** `type.charAt(0).toUpperCase() + type.slice(1)` */
  function Capitalise(s: string): (r: string)
    ensures |r| == |s|
    ensures s != "" ==> r[0] == UpperChar(s[0]) && r[1..] == s[1..]
  {
    if s == "" then "" else [UpperChar(s[0])] + s[1..]
  }

  /** The name a bot gets when `meta` has none: its capitalised type and " Bot". */
  function DefaultName(botType: string): (r: string)
    ensures |r| == |botType| + |BotSuffix| && r[|botType|..] == BotSuffix
    ensures botType != "" ==> r[0] == UpperChar(botType[0]) && r[1..|botType|] == botType[1..]
  {
    Capitalise(botType) + BotSuffix
  }

  /** The stored metadata: each field of `meta`, or its default when missing. */
  function MetaFor(botType: string, meta: MetaArg): (m: Meta)
    ensures m.name != "" && m.description != ""
    ensures meta.name != "" ==> m.name == meta.name
    ensures meta.name == "" ==> m.name == DefaultName(botType)
    ensures meta.description != "" ==> m.description == meta.description
    ensures meta.description == "" ==> m.description == DefaultDescription
    ensures meta.commands.None? ==> m.commands == []
    ensures meta.commands.Some? ==> m.commands == meta.commands.value
  {
    Meta(Or(meta.name, DefaultName(botType)), Or(meta.description, DefaultDescription), meta.commands.GetOr([]))
  }

  /** With no `meta` at all, a bot gets every default. */
  lemma NoMetaDefaults(botType: string)
    ensures MetaFor(botType, NoMeta) == Meta(DefaultName(botType), DefaultDescription, [])
  {
  }

  // ----------------------------------------------------------- the table

  /** The registry `Map`: its entries, and its keys in insertion order. */
  datatype Table = Table(entries: map<string, Registration>, order: seq<string>)

  const Empty := Table(map[], [])

  /** The keys listed in `order` are exactly the entries' keys, each once, and
      every entry is stored under its own type. */
  ghost predicate WellFormed(t: Table) {
    (forall k :: k in t.entries <==> k in t.order)
    && (forall i, j | 0 <= i < j < |t.order| :: t.order[i] != t.order[j])
    && (forall k | k in t.entries :: t.entries[k].botType == k)
  }

  /** `registry.set(reg.type, reg)`: a new key goes to the end of the order,
      an existing key keeps its place and gets the new value. */
  function Set(t: Table, reg: Registration): (u: Table)
    ensures reg.botType in u.entries && u.entries[reg.botType] == reg
    ensures forall k | k != reg.botType :: (k in u.entries <==> k in t.entries)
    ensures forall k | k != reg.botType && k in t.entries :: u.entries[k] == t.entries[k]
  {
    Table(t.entries[reg.botType := reg],
          if reg.botType in t.entries then t.order else t.order + [reg.botType])
  }

  /** A registration keeps the table well formed. */
  lemma SetWellFormed(t: Table, reg: Registration)
    requires WellFormed(t)
    ensures WellFormed(Set(t, reg))
  {
  }

  /** Registering a known type again replaces its entry in place: the size and
      the order stay as they were. A new type grows the table by one and is
      listed last. */
  lemma SetSize(t: Table, reg: Registration)
    ensures reg.botType in t.entries ==>
              |Set(t, reg).entries| == |t.entries| && Set(t, reg).order == t.order
    ensures reg.botType !in t.entries ==>
              |Set(t, reg).entries| == |t.entries| + 1 && Set(t, reg).order == t.order + [reg.botType]
  {
  }

  /** `registry.get(type)?.handler || null` */
  function HandlerOf(t: Table, botType: string): (h: Option<Handler>)
    ensures h.Some? <==> botType in t.entries
    ensures h.Some? ==> h.value == t.entries[botType].handler
  {
    if botType in t.entries then Some(t.entries[botType].handler) else None
  }

  function InfoOf(reg: Registration): BotInfo {
    BotInfo(reg.botType, reg.meta.name, reg.meta.description, reg.meta.commands)
  }

  /** Every key in the order has an entry. */
  predicate Indexed(t: Table) {
    forall i | 0 <= i < |t.order| :: t.order[i] in t.entries
  }

  /** `listBots()`: one element per key, in insertion order. */
  function Listing(t: Table): (bots: seq<BotInfo>)
    requires Indexed(t)
    ensures |bots| == |t.order|
    ensures forall i | 0 <= i < |bots| :: bots[i] == InfoOf(t.entries[t.order[i]])
  {
    seq(|t.order|, i requires 0 <= i < |t.order| => InfoOf(t.entries[t.order[i]]))
  }

  /** Each registered type is listed exactly once. */
  lemma ListedOnce(t: Table, botType: string)
    requires WellFormed(t) && botType in t.entries
    ensures exists i | 0 <= i < |Listing(t)| :: Listing(t)[i].botType == botType
    ensures forall i, j | 0 <= i < |Listing(t)| && 0 <= j < |Listing(t)| ::
              Listing(t)[i].botType == botType && Listing(t)[j].botType == botType ==> i == j
  {
    var i :| 0 <= i < |t.order| && t.order[i] == botType;
    assert Listing(t)[i].botType == botType;
  }

  /** A listing after a registration: a new type is appended to the old list;
      a known type's element is replaced where it stood and every other
      element stays. */
  lemma ListingAfterSet(t: Table, reg: Registration)
    requires Indexed(t)
    ensures Indexed(Set(t, reg))
    ensures reg.botType !in t.entries ==> Listing(Set(t, reg)) == Listing(t) + [InfoOf(reg)]
    ensures reg.botType in t.entries ==>
              |Listing(Set(t, reg))| == |Listing(t)|
              && forall i | 0 <= i < |t.order| ::
                   Listing(Set(t, reg))[i] == if t.order[i] == reg.botType then InfoOf(reg) else Listing(t)[i]
  {
    var u := Set(t, reg);
    if reg.botType !in t.entries {
      assert forall i | 0 <= i < |t.order| :: u.order[i] == t.order[i];
      assert Listing(u)[|t.order|] == InfoOf(reg);
    }
  }

  // ---------------------------------------------------------- the built-ins

  const BarberReg := Registration("barber", Handler("../modules/barber"),
    Meta("Barber Bot", "Helps barber shops manage services, bookings, and operating hours.",
         ["services", "book", "hours", "cancel", "my bookings"]))
  const CarwashReg := Registration("carwash", Handler("../modules/carwash"),
    Meta("Car Wash Bot", "Supports car wash queues, bookings, and price lists.",
         ["services", "queue", "book", "hours"]))
  const SpazaReg := Registration("spaza", Handler("../modules/spaza"),
    Meta("Spaza Shop Bot", "Handles menu, stock checks, and WhatsApp orders for spaza shops.",
         ["menu", "order", "stock", "delivery", "hours"]))

  /** The registry once the module has loaded. */
  function Loaded(): Table {
    Set(Set(Set(Empty, BarberReg), CarwashReg), SpazaReg)
  }

  /** Three registrations of distinct types into an empty registry are
      listed in the order they were made. */
  lemma ThreeRegistrations(a: Registration, b: Registration, c: Registration)
    requires a.botType != b.botType && a.botType != c.botType && b.botType != c.botType
    ensures Set(Set(Set(Empty, a), b), c).order == [a.botType, b.botType, c.botType]
    ensures Listing(Set(Set(Set(Empty, a), b), c)) == [InfoOf(a), InfoOf(b), InfoOf(c)]
  {
    var t1 := Set(Empty, a);
    var t2 := Set(t1, b);
    ListingAfterSet(Empty, a);
    assert t1.order == [a.botType] && Listing(t1) == [InfoOf(a)];
    ListingAfterSet(t1, b);
    assert t2.order == [a.botType, b.botType] && Listing(t2) == [InfoOf(a), InfoOf(b)];
    ListingAfterSet(t2, c);
  }

  /** After loading, exactly barber, carwash and spaza are registered, listed
      in that order with their metadata, and every other type has no handler. */
  lemma LoadedBots(botType: string)
    ensures Loaded().order == ["barber", "carwash", "spaza"]
    ensures Listing(Loaded()) == [InfoOf(BarberReg), InfoOf(CarwashReg), InfoOf(SpazaReg)]
    ensures HandlerOf(Loaded(), botType).Some? <==> botType == "barber" || botType == "carwash" || botType == "spaza"
  {
    assert BarberReg.botType[0] != CarwashReg.botType[0] && BarberReg.botType[0] != SpazaReg.botType[0]
           && CarwashReg.botType[0] != SpazaReg.botType[0];
    ThreeRegistrations(BarberReg, CarwashReg, SpazaReg);
  }

  // ------------------------------------------------------------ the class

  /** The module-level `registry` and the functions over it. */
  class Registry {
    var entries: map<string, Registration>
    var order: seq<string>

    function Snapshot(): Table
      reads this
    {
      Table(entries, order)
    }

    ghost predicate Valid()
      reads this
    {
      WellFormed(Snapshot())
    }

    /** Loading the module: the three built-in registrations. */
    constructor Load()
      ensures Valid() && Snapshot() == Loaded()
    {
      entries := map[];
      order := [];
      new;
      var e := RegisterBot("barber", Some(BarberReg.handler), MetaArg(BarberReg.meta.name,
                           BarberReg.meta.description, Some(BarberReg.meta.commands)));
      e := RegisterBot("carwash", Some(CarwashReg.handler), MetaArg(CarwashReg.meta.name,
                       CarwashReg.meta.description, Some(CarwashReg.meta.commands)));
      e := RegisterBot("spaza", Some(SpazaReg.handler), MetaArg(SpazaReg.meta.name,
                       SpazaReg.meta.description, Some(SpazaReg.meta.commands)));
    }

    /** `registerBot(type, handler, meta)`: `error` is the message it throws. */
    method RegisterBot(botType: string, handler: Option<Handler>, meta: MetaArg) returns (error: Option<string>)
      requires Valid()
      modifies this
      ensures Valid()
      ensures handler.None? ==>
                error == Some(NoHandlerHead + botType + NoHandlerTail)
                && entries == old(entries) && order == old(order)
      ensures handler.Some? ==>
                error.None?
                && Snapshot() == Set(old(Snapshot()), Registration(botType, handler.value, MetaFor(botType, meta)))
    {
      if handler.None? {
        return Some(NoHandlerHead + botType + NoHandlerTail);
      }
      var t := Set(Snapshot(), Registration(botType, handler.value, MetaFor(botType, meta)));
      SetWellFormed(Snapshot(), Registration(botType, handler.value, MetaFor(botType, meta)));
      entries := t.entries;
      order := t.order;
      error := None;
    }

    /** `getBotHandler(type)` */
    method GetBotHandler(botType: string) returns (h: Option<Handler>)
      ensures h == HandlerOf(Snapshot(), botType)
    {
      if botType in entries {
        h := Some(entries[botType].handler);
      } else {
        h := None;
      }
    }

    /** `listBots()` */
    method ListBots() returns (bots: seq<BotInfo>)
      requires Valid()
      ensures bots == Listing(Snapshot())
    {
      bots := Listing(Snapshot());
    }
  }
}
