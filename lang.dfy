/** The language rule every localised text table of the bot follows:
    `table[code] || table.en`, with the effective code taken from the
    customer, then the business, then English. */
module Lang {
  import opened Text

  /** The codes every localised table carries: English, Afrikaans, isiXhosa,
      isiZulu and Sesotho. */
  predicate Known(code: string) {
    code == "en" || code == "af" || code == "xh" || code == "zu" || code == "st"
  }

  /** The table key a lookup ends up using: the code itself when the table has
      an entry for it, English otherwise. */
  function Resolve(code: string): (r: string)
    ensures Known(r)
    ensures Known(code) ==> r == code
    ensures !Known(code) ==> r == "en"
  {
    if Known(code) then code else "en"
  }

  /** `customer?.language || business.language || 'en'`, with a missing or
      null language given as "". */
  function Effective(customerLang: string, businessLang: string): (r: string)
    ensures r != ""
    ensures customerLang != "" ==> r == customerLang
    ensures customerLang == "" && businessLang != "" ==> r == businessLang
    ensures customerLang == "" && businessLang == "" ==> r == "en"
  {
    Or(customerLang, Or(businessLang, "en"))
  }
}
