/** The marketing page's quote calculator. Prices are in
    integer cents: every amount the calculator produces is a multiple of
    $0.50, so cents are exact. */
module Pricing {
  import opened Wrappers
  import opened Text
  import opened Types

  datatype Tier = Basic | Professional | Enterprise

  /** The tier switch: the annual platform fee. */
  function BasePriceCents(t: Tier): nat {
    match t
    case Basic => 300000
    case Professional => 500000
    case Enterprise => 1000000
  }

  /** The tier switch: the list price per bus. */
  function PerBusCents(t: Tier): nat {
    match t
    case Basic => 20000
    case Professional => 40000
    case Enterprise => 60000
  }

  /** The volume discount per bus: a ladder with strict thresholds. */
  function DiscountPerBusCents(busCount: int): (d: nat)
    ensures d <= 500
    ensures d == 0 <==> busCount <= 100
  {
    if busCount > 1000 then 500
    else if busCount > 750 then 400
    else if busCount > 500 then 350
    else if busCount > 250 then 300
    else if busCount > 100 then 250
    else 0
  }

  /** $172.50 per legacy bus for the retrofit scanner kit. */
  const HardwareCentsPerBus: nat := 17250

  /** A larger fleet never gets a smaller discount. */
  lemma DiscountMonotone(a: int, b: int)
    requires a <= b
    ensures DiscountPerBusCents(a) <= DiscountPerBusCents(b)
  {
  }

  /** The thresholds are strict: each step starts one bus above its bound. */
  lemma DiscountThresholds()
    ensures DiscountPerBusCents(100) == 0 && DiscountPerBusCents(101) == 250
    ensures DiscountPerBusCents(250) == 250 && DiscountPerBusCents(251) == 300
    ensures DiscountPerBusCents(500) == 300 && DiscountPerBusCents(501) == 350
    ensures DiscountPerBusCents(750) == 350 && DiscountPerBusCents(751) == 400
    ensures DiscountPerBusCents(1000) == 400 && DiscountPerBusCents(1001) == 500
  {
  }

  /** Higher tiers cost more, both as a base fee and per bus. */
  lemma TiersOrdered()
    ensures BasePriceCents(Basic) < BasePriceCents(Professional) < BasePriceCents(Enterprise)
    ensures PerBusCents(Basic) < PerBusCents(Professional) < PerBusCents(Enterprise)
  {
  }

  /** Even the largest discount leaves at least $195 per bus. */
  lemma AdjustedPerBusFloor(t: Tier, busCount: int)
    ensures PerBusCents(t) - DiscountPerBusCents(busCount) >= 19500
  {
  }

  /** The quote form's fields, as typed. */
  datatype QuoteForm = QuoteForm(
    district: string, contact: string, role: string, email: string,
    students: string, buses: string, legacyBuses: string, tier: Tier)

  datatype QuoteStatus = Pending

  datatype Quote = Quote(
    id: string,
    districtName: string,
    contactName: string,
    contactRole: string,
    email: string,
    studentCount: int,
    busCount: int,
    legacyBusCount: int,
    tier: Tier,
    amountCents: int,
    hardwareCostCents: int,
    status: QuoteStatus,
    submittedDate: string)

  datatype DiscountDetails = DiscountDetails(perBusCents: int, totalDiscountCents: int)

  /** What a submission produces: the quote record and the figures shown beside it. */
  datatype QuoteOutcome = QuoteOutcome(quote: Quote, discount: DiscountDetails, hardwareCostCents: int)

  /** The figures the calculator derives from the tier and the two counts. */
  datatype Price = Price(discountPerBusCents: int, totalDiscountCents: int, hardwareCents: int, amountCents: int)

  lemma Distribute(k: int, p: int, d: int)
    ensures k * (p - d) + k * d == k * p
  {
  }

  lemma MulFloor(k: int, a: int, b: int)
    requires a >= b
    ensures k >= 0 ==> k * a >= k * b
  {
  }

  /** The arithmetic of the submit handler: base fee, discounted per-bus price,
      hardware add-on. */
  function PriceFor(t: Tier, busCount: int, legacyCount: int): (r: Price)
    ensures r.discountPerBusCents == DiscountPerBusCents(busCount)
    ensures r.totalDiscountCents == busCount * r.discountPerBusCents
    ensures r.hardwareCents == legacyCount * HardwareCentsPerBus
    // The discounted amount plus the discount is the list price.
    ensures r.amountCents + r.totalDiscountCents ==
            BasePriceCents(t) + busCount * PerBusCents(t) + r.hardwareCents
    // With non-negative counts the amount never drops below the base fee.
    ensures busCount >= 0 && legacyCount >= 0 ==>
              r.amountCents >= BasePriceCents(t) + 19500 * busCount + r.hardwareCents
  {
    var discount := DiscountPerBusCents(busCount);
    var adjusted := PerBusCents(t) - discount;
    Distribute(busCount, PerBusCents(t), discount);
    AdjustedPerBusFloor(t, busCount);
    MulFloor(busCount, adjusted, 19500);
    var hardware := legacyCount * HardwareCentsPerBus;
    Price(discount, busCount * discount, hardware, BasePriceCents(t) + busCount * adjusted + hardware)
  }

  /** The quote calculator's submit handler. */
  function SubmitQuote(form: QuoteForm, clock: Clock): (r: QuoteOutcome)
    // Counts are read with `parseInt(...) || 0`.
    ensures r.quote.busCount == ParseIntOrZero(form.buses)
    ensures r.quote.legacyBusCount == ParseIntOrZero(form.legacyBuses)
    ensures r.quote.studentCount == ParseIntOrZero(form.students)
    ensures r.quote.tier == form.tier && r.quote.status == Pending
    ensures r.quote.id == StampId("Q-", clock) && r.quote.submittedDate == clock.date
    ensures r.quote.districtName == form.district && r.quote.contactName == form.contact
    ensures r.quote.contactRole == form.role && r.quote.email == form.email
    // The amount, the hardware add-on (shown twice) and the discount all come from the same figures.
    ensures var p := PriceFor(form.tier, r.quote.busCount, r.quote.legacyBusCount);
            && r.quote.amountCents == p.amountCents
            && r.hardwareCostCents == r.quote.hardwareCostCents == p.hardwareCents
            && r.discount == DiscountDetails(p.discountPerBusCents, p.totalDiscountCents)
  {
    var busCount := ParseIntOrZero(form.buses);
    var legacyCount := ParseIntOrZero(form.legacyBuses);
    var p := PriceFor(form.tier, busCount, legacyCount);
    var quote := Quote(StampId("Q-", clock), form.district, form.contact, form.role, form.email,
                       ParseIntOrZero(form.students), busCount, legacyCount, form.tier,
                       p.amountCents, p.hardwareCents, Pending, clock.date);
    QuoteOutcome(quote, DiscountDetails(p.discountPerBusCents, p.totalDiscountCents), p.hardwareCents)
  }

  /** Counts typed as plain numbers (with surrounding blanks) are read back exactly. */
  lemma TypedCountsReadBack(form: QuoteForm, clock: Clock, buses: nat, legacy: nat)
    requires form.buses == " " + NatToString(buses) + " "
    requires form.legacyBuses == NatToString(legacy)
    ensures SubmitQuote(form, clock).quote.busCount == buses
    ensures SubmitQuote(form, clock).quote.legacyBusCount == legacy
    ensures SubmitQuote(form, clock).hardwareCostCents == legacy * HardwareCentsPerBus
  {
    ParseIntPadded(buses);
    ParseIntBare(legacy);
  }

  /** A blank or non-numeric count is 0, so an empty form quotes the bare base fee. */
  lemma BlankCountsQuoteBase(form: QuoteForm, clock: Clock)
    requires form.buses == "" && form.legacyBuses == "" && form.students == "n/a"
    ensures SubmitQuote(form, clock).quote.busCount == 0
    ensures SubmitQuote(form, clock).quote.studentCount == 0
    ensures SubmitQuote(form, clock).quote.amountCents == BasePriceCents(form.tier)
  {
    BlankParsesToZero();
    assert PriceFor(form.tier, 0, 0).amountCents == BasePriceCents(form.tier);
  }

  /** A negative bus count (such as "-5", see Text.ParseIntNegative) is not
      rejected: it is quoted, below the base fee. */
  lemma NegativeBusCountAccepted(form: QuoteForm, clock: Clock)
    requires ParseIntOrZero(form.buses) < 0 && ParseIntOrZero(form.legacyBuses) == 0
    ensures SubmitQuote(form, clock).quote.busCount < 0
    ensures SubmitQuote(form, clock).quote.amountCents < BasePriceCents(form.tier)
  {
    NegativeCountPrice(form.tier, ParseIntOrZero(form.buses));
  }

  lemma BlankParsesToZero()
    ensures ParseIntOrZero("") == 0 && ParseIntOrZero("n/a") == 0
  {
    ParseIntNoDigits("");
    var na := "n/a";
    assert na[0] == 'n' && !IsJsSpace(na[0]);
    assert TrimStart(na) == na;
    ParseIntNoDigits(na);
  }

  lemma NegativeCountPrice(t: Tier, k: int)
    requires k < 0
    ensures PriceFor(t, k, 0).amountCents < BasePriceCents(t)
  {
    var p := PriceFor(t, k, 0);
    assert p.discountPerBusCents == 0;
    assert p.totalDiscountCents == 0;
    assert p.amountCents == BasePriceCents(t) + k * PerBusCents(t);
    MulFloor(-k, PerBusCents(t), 1);
  }
}
