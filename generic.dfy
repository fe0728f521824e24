/** The helpers every business type shares: the business and customer
    records, customer get-or-create, the localised greeting, the
    operating-hours text and the lookup of a business by its number. */
module Generic {
  import opened Wrappers
  import opened Text
  import opened Lang

  /** `business.operating_hours` as read from the row: absent (`NULL`), a
      JSON text (`None` when `JSON.parse` throws on it), or an object already. */
  datatype Hours = NoHours | HoursText(parsed: Option<map<string, string>>) | HoursTable(days: map<string, string>)

  /** A row of `businesses`; a `NULL` language is "". */
  datatype Business = Business(id: int, name: string, businessType: string, language: string,
                               hours: Hours, whatsappNumber: Option<string>,
                               phoneNumber: Option<string>, aiEnabled: bool)

  /** A row of `customers`; a `NULL` language is "". */
  datatype Customer = Customer(id: int, name: string, phone: string, businessId: int, language: string)

  // ---------------------------------------------------------------- customers

  predicate IsCustomerOf(c: Customer, phone: string, businessId: int) {
    c.phone == phone && c.businessId == businessId
  }

  /** `SELECT * FROM customers WHERE phone_number = ? AND business_id = ?`
      through `db.get`: the first such row. */
  function FindCustomer(rows: seq<Customer>, phone: string, businessId: int): (r: Option<Customer>)
    ensures r.None? <==> forall i | 0 <= i < |rows| :: !IsCustomerOf(rows[i], phone, businessId)
    ensures r.Some? ==> exists i | 0 <= i < |rows| :: rows[i] == r.value && IsCustomerOf(r.value, phone, businessId)
                                                      && forall j | 0 <= j < i :: !IsCustomerOf(rows[j], phone, businessId)
  {
    if rows == [] then None
    else if IsCustomerOf(rows[0], phone, businessId) then Some(rows[0])
    else
      var r := FindCustomer(rows[1..], phone, businessId);
      if r.Some? then
        var i :| 0 <= i < |rows[1..]| && rows[1..][i] == r.value && IsCustomerOf(r.value, phone, businessId)
                 && forall j | 0 <= j < i :: !IsCustomerOf(rows[1..][j], phone, businessId);
        assert rows[i + 1] == r.value;
        assert forall j | 0 <= j < i + 1 :: !IsCustomerOf(rows[j], phone, businessId) by {
          forall j | 0 <= j < i + 1 ensures !IsCustomerOf(rows[j], phone, businessId) {
            if j > 0 {
              assert rows[j] == rows[1..][j - 1];
            }
          }
        }
        r
      else
        assert forall i | 0 <= i < |rows| :: !IsCustomerOf(rows[i], phone, businessId) by {
          forall i | 0 <= i < |rows| ensures !IsCustomerOf(rows[i], phone, businessId) {
            if i > 0 {
              assert rows[i] == rows[1..][i - 1];
            }
          }
        }
        r
  }

  /** Ids are positive, below the next id the table hands out, and unique. */
  predicate CustomersValid(rows: seq<Customer>, nextId: int) {
    0 < nextId &&
    (forall i | 0 <= i < |rows| :: 0 < rows[i].id < nextId) &&
    (forall i, j | 0 <= i < j < |rows| :: rows[i].id != rows[j].id)
  }

  /** The customer a call returns and the table after it. */
  datatype Lookup = Lookup(customer: Customer, rows: seq<Customer>, nextId: int)

  const DefaultCustomerName := "Customer"

  /** `getOrCreateCustomer(phone, businessId, name)`: the existing row for the
      pair, or a new row named `name || 'Customer'` with language 'en' and
      the next row id. */
  function GetOrCreate(rows: seq<Customer>, nextId: int, phone: string, businessId: int,
                       name: string): (l: Lookup)
    ensures FindCustomer(rows, phone, businessId).Some? ==>
              l == Lookup(FindCustomer(rows, phone, businessId).value, rows, nextId)
    ensures FindCustomer(rows, phone, businessId).None? ==>
              l.customer == Customer(nextId, Or(name, DefaultCustomerName), phone, businessId, "en")
              && l.rows == rows + [l.customer] && l.nextId == nextId + 1
  {
    match FindCustomer(rows, phone, businessId)
    case Some(c) => Lookup(c, rows, nextId)
    case None =>
      var c := Customer(nextId, Or(name, DefaultCustomerName), phone, businessId, "en");
      Lookup(c, rows + [c], nextId + 1)
  }

  /** A row appended after every earlier match is found only when nothing
      before it matched. */
  lemma FindAfterAppend(rows: seq<Customer>, c: Customer, phone: string, businessId: int)
    requires FindCustomer(rows, phone, businessId).None?
    ensures FindCustomer(rows + [c], phone, businessId) ==
            if IsCustomerOf(c, phone, businessId) then Some(c) else None
  {
    var all := rows + [c];
    if IsCustomerOf(c, phone, businessId) {
      var r := FindCustomer(all, phone, businessId);
      assert all[|rows|] == c;
      assert forall j | 0 <= j < |rows| :: all[j] == rows[j];
      var i :| 0 <= i < |all| && all[i] == r.value && IsCustomerOf(r.value, phone, businessId)
               && forall j | 0 <= j < i :: !IsCustomerOf(all[j], phone, businessId);
    } else {
      assert forall i | 0 <= i < |all| :: !IsCustomerOf(all[i], phone, businessId) by {
        forall i | 0 <= i < |all| ensures !IsCustomerOf(all[i], phone, businessId) {
          if i < |rows| {
            assert all[i] == rows[i];
          }
        }
      }
    }
  }

  /** The table's invariant survives a call. */
  lemma GetOrCreateValid(rows: seq<Customer>, nextId: int, phone: string, businessId: int, name: string)
    requires CustomersValid(rows, nextId)
    ensures CustomersValid(GetOrCreate(rows, nextId, phone, businessId, name).rows,
                           GetOrCreate(rows, nextId, phone, businessId, name).nextId)
  {
  }

  /** A second call for the same phone and business returns the customer the
      first call returned, and inserts nothing. */
  lemma SecondCallSameCustomer(rows: seq<Customer>, nextId: int, phone: string, businessId: int,
                               name1: string, name2: string)
    ensures var first := GetOrCreate(rows, nextId, phone, businessId, name1);
            var second := GetOrCreate(first.rows, first.nextId, phone, businessId, name2);
            second == first
  {
    var first := GetOrCreate(rows, nextId, phone, businessId, name1);
    if FindCustomer(rows, phone, businessId).None? {
      FindAfterAppend(rows, first.customer, phone, businessId);
    }
  }

  /** Customers are keyed by the pair: the same phone under another business
      gets a customer of its own, with a different id. */
  lemma CustomerPerBusiness(rows: seq<Customer>, nextId: int, phone: string, b1: int, b2: int,
                            name1: string, name2: string)
    requires CustomersValid(rows, nextId) && b1 != b2
    ensures var first := GetOrCreate(rows, nextId, phone, b1, name1);
            var second := GetOrCreate(first.rows, first.nextId, phone, b2, name2);
            second.customer.businessId == b2 && first.customer.businessId == b1
            && second.customer.id != first.customer.id
  {
    var first := GetOrCreate(rows, nextId, phone, b1, name1);
    GetOrCreateValid(rows, nextId, phone, b1, name1);
    var second := GetOrCreate(first.rows, first.nextId, phone, b2, name2);
    var f := FindCustomer(first.rows, phone, b2);
    if f.Some? {
      var i :| 0 <= i < |first.rows| && first.rows[i] == f.value && IsCustomerOf(f.value, phone, b2);
      var k :| 0 <= k < |first.rows| && first.rows[k] == first.customer;
      assert i != k;
    } else {
      assert second.customer.id == first.nextId;
    }
  }

  /** The customers table, with SQLite's `lastID` as a counter. */
  class CustomerTable {
    var rows: seq<Customer>
    var nextId: int

    predicate Valid()
      reads this
    {
      CustomersValid(rows, nextId)
    }

    constructor ()
      ensures Valid() && rows == [] && nextId == 1
    {
      rows, nextId := [], 1;
    }

    /** `getOrCreateCustomer`; a `null` name is given as "". */
    method GetOrCreateCustomer(phone: string, businessId: int, name: string) returns (c: Customer)
      requires Valid()
      modifies this
      ensures Valid()
      ensures Lookup(c, rows, nextId) == GetOrCreate(old(rows), old(nextId), phone, businessId, name)
    {
      GetOrCreateValid(rows, nextId, phone, businessId, name);
      var found := FindCustomer(rows, phone, businessId);
      if found.Some? {
        c := found.value;
      } else {
        c := Customer(nextId, Or(name, DefaultCustomerName), phone, businessId, "en");
        rows := rows + [c];
        nextId := nextId + 1;
      }
    }
  }

  // ----------------------------------------------------------------- greeting

  const GreetEn := "Hello! Welcome to "
  const GreetEnTail := ". How can we help you today?"
  const GreetAf := "Hallo! Welkom by "
  const GreetAfTail := ". Hoe kan ons jou help vandag?"
  const GreetXh := "Molo! Wamkelekile e-"
  const GreetXhTail := ". Singakunceda njani namhlanje?"
  const GreetZu := "Sawubona! Siyakwamukela e-"
  const GreetZuTail := ". Singakusiza kanjani namuhla?"
  const GreetSt := "Dumela! Rea u amohela ho "
  const GreetStTail := ". Re ka u thusa joang kajeno?"

  /** The text before and after the business name in one language's greeting. */
  function GreetingParts(code: string): (string, string) {
    match Resolve(code)
    case "af" => (GreetAf, GreetAfTail)
    case "xh" => (GreetXh, GreetXhTail)
    case "zu" => (GreetZu, GreetZuTail)
    case "st" => (GreetSt, GreetStTail)
    case _ => (GreetEn, GreetEnTail)
  }

  function Greeting(code: string, businessName: string): string {
    GreetingParts(code).0 + businessName + GreetingParts(code).1
  }

  /** `getGreeting(business, customer)`; without a customer `customerLang` is "". */
  function GetGreeting(business: Business, customerLang: string): (r: string)
    ensures r == Greeting(Effective(customerLang, business.language), business.name)
    ensures Contains(r, business.name)
  {
    var parts := GreetingParts(Effective(customerLang, business.language));
    ContainsInfix(parts.0, business.name, parts.1);
    parts.0 + business.name + parts.1
  }

  /** The customer's language decides, then the business's, then English;
      a code without a greeting gets the English one. */
  lemma GreetingLanguage(business: Business, customerLang: string)
    ensures customerLang != "" ==> GetGreeting(business, customerLang) == Greeting(customerLang, business.name)
    ensures customerLang == "" ==> GetGreeting(business, customerLang) == Greeting(Or(business.language, "en"), business.name)
    ensures !Known(Effective(customerLang, business.language)) ==>
              GetGreeting(business, customerLang) == GreetEn + business.name + GreetEnTail
  {
  }

  // ---------------------------------------------------------- operating hours

  const Days := ["monday", "tuesday", "wednesday", "thursday", "friday", "saturday", "sunday"]

  function HoursTitle(code: string): string {
    match Resolve(code)
    case "af" => "Ons Bedryfstye:"
    case "xh" => "Iiyure Zethu Zokusebenza:"
    case "zu" => "Amahora Ethu Okusebenza:"
    case "st" => "Lihora la Rona la Tshebetso:"
    case _ => "Our Operating Hours:"
  }

  function DayNames(code: string): (r: seq<string>)
    ensures |r| == 7
  {
    match Resolve(code)
    case "af" => ["Maandag", "Dinsdag", "Woensdag", "Donderdag", "Vrydag", "Saterdag", "Sondag"]
    case "xh" => ["Mvulo", "Lwesibini", "Lwesithathu", "Lwesine", "Lwesihlanu", "Mgqibelo", "Cawe"]
    case "zu" => ["Msombuluko", "Lwesibili", "Lwesithathu", "Lwesine", "Lwesihlanu", "Mgqibelo", "Sonto"]
    case "st" => ["Mantaha", "Labobedi", "Laboraro", "Labone", "Labohlano", "Moqebelo", "Sontaha"]
    case _ => ["Monday", "Tuesday", "Wednesday", "Thursday", "Friday", "Saturday", "Sunday"]
  }

  /** The hours object the text is built from: a text that does not parse
      gives `{}`; a missing one gives nothing (indexing it throws). */
  function HoursObject(h: Hours): (r: Option<map<string, string>>)
    ensures r.None? <==> h.NoHours?
    ensures h == HoursText(None) ==> r == Some(map[])
  {
    match h
    case NoHours => None
    case HoursText(p) => Some(p.GetOr(map[]))
    case HoursTable(m) => Some(m)
  }

  /** `hours[day] || 'Closed'`. */
  function DayHours(hours: map<string, string>, day: string): (r: string)
    ensures r != ""
    ensures day in hours && hours[day] != "" ==> r == hours[day]
    ensures (day !in hours || hours[day] == "") ==> r == "Closed"
  {
    if day in hours && hours[day] != "" then hours[day] else "Closed"
  }

  function Line(name: string, hours: string): string {
    name + ": " + hours + "\n"
  }

  /** The lines of the first `k` days. */
  function DayLines(names: seq<string>, hours: map<string, string>, k: nat): string
    requires k <= |names| && k <= |Days|
  {
    if k == 0 then "" else DayLines(names, hours, k - 1) + Line(names[k - 1], DayHours(hours, Days[k - 1]))
  }

  function Concat(parts: seq<string>): string {
    if parts == [] then "" else Concat(parts[..|parts| - 1]) + parts[|parts| - 1]
  }

  /** The text `getOperatingHours` builds, or `None` where it throws. */
  function HoursMessage(business: Business): Option<string> {
    match HoursObject(business.hours)
    case None => None
    case Some(hours) =>
      var code := Or(business.language, "en");
      Some(HoursTitle(code) + "\n\n" + DayLines(DayNames(code), hours, 7))
  }

  /** `getOperatingHours(business)`: the title, a blank line, then one line
      per day appended in turn. */
  method GetOperatingHours(business: Business) returns (r: Option<string>)
    ensures r == HoursMessage(business)
  {
    var hours := HoursObject(business.hours);
    if hours.None? {
      return None;
    }
    var code := Or(business.language, "en");
    var response := AppendDayLines(HoursTitle(code) + "\n\n", DayNames(code), hours.value);
    r := Some(response);
  }

  /** The loop of `getOperatingHours`: one line per day appended to `head`. */
  method AppendDayLines(head: string, names: seq<string>, hours: map<string, string>) returns (response: string)
    requires |names| == 7
    ensures response == head + DayLines(names, hours, 7)
  {
    response := head;
    for index := 0 to 7
      invariant response == head + DayLines(names, hours, index)
    {
      response := response + Line(names[index], DayHours(hours, Days[index]));
    }
  }

  lemma {:induction false} DayLinesConcat(names: seq<string>, hours: map<string, string>, k: nat)
    requires k <= |names| && k <= |Days|
    ensures DayLines(names, hours, k) == Concat(seq(k, i requires 0 <= i < k => Line(names[i], DayHours(hours, Days[i]))))
  {
    if k > 0 {
      DayLinesConcat(names, hours, k - 1);
      var s := seq(k, i requires 0 <= i < k => Line(names[i], DayHours(hours, Days[i])));
      assert s[..k - 1] == seq(k - 1, i requires 0 <= i < k - 1 => Line(names[i], DayHours(hours, Days[i])));
    }
  }

  /** The text is the title and exactly seven lines, Monday to Sunday, each
      with that day's hours or 'Closed'. */
  lemma HoursSevenLines(business: Business)
    requires !business.hours.NoHours?
    ensures var code := Or(business.language, "en");
            var hours := HoursObject(business.hours).value;
            HoursMessage(business) ==
              Some(HoursTitle(code) + "\n\n" +
                   Concat(seq(7, i requires 0 <= i < 7 => Line(DayNames(code)[i], DayHours(hours, Days[i])))))
  {
    var code := Or(business.language, "en");
    DayLinesConcat(DayNames(code), HoursObject(business.hours).value, 7);
  }

  /** Hours that do not parse show every day as closed. */
  lemma UnparseableAllClosed(business: Business)
    requires business.hours == HoursText(None)
    ensures var code := Or(business.language, "en");
            HoursMessage(business) ==
              Some(HoursTitle(code) + "\n\n" + Concat(seq(7, i requires 0 <= i < 7 => Line(DayNames(code)[i], "Closed"))))
  {
    HoursSevenLines(business);
    var code := Or(business.language, "en");
    assert seq(7, i requires 0 <= i < 7 => Line(DayNames(code)[i], DayHours(map[], Days[i])))
        == seq(7, i requires 0 <= i < 7 => Line(DayNames(code)[i], "Closed"));
  }

  /** Only the business's language counts, and a language without a table
      reads as English. */
  lemma HoursLanguage(business: Business)
    requires !Known(business.language)
    ensures HoursMessage(business) == HoursMessage(business.(language := "en"))
  {
  }

  // ----------------------------------------------------------------- lookup

  predicate HasNumber(b: Business, phone: string) {
    b.whatsappNumber == Some(phone) || b.phoneNumber == Some(phone)
  }

  /** `SELECT * FROM businesses WHERE whatsapp_number = ? OR phone_number = ?`
      through `db.get`: the first such row. */
  function FindBusinessByPhone(rows: seq<Business>, phone: string): (r: Option<Business>)
    ensures r.None? <==> forall i | 0 <= i < |rows| :: !HasNumber(rows[i], phone)
    ensures r.Some? ==> exists i | 0 <= i < |rows| :: rows[i] == r.value && HasNumber(r.value, phone)
                                                      && forall j | 0 <= j < i :: !HasNumber(rows[j], phone)
  {
    if rows == [] then None
    else if HasNumber(rows[0], phone) then Some(rows[0])
    else
      var r := FindBusinessByPhone(rows[1..], phone);
      assert forall i | 0 < i < |rows| :: rows[i] == rows[1..][i - 1];
      if r.Some? then
        var i :| 0 <= i < |rows[1..]| && rows[1..][i] == r.value && HasNumber(r.value, phone)
                 && forall j | 0 <= j < i :: !HasNumber(rows[1..][j], phone);
        assert rows[i + 1] == r.value;
        r
      else r
  }
}
