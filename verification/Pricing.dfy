/**
 * Integer-money pricing. Money is in minor units, instants in milliseconds, and
 * percentages in hundredths of a percent (the numeric(5,2) `percentage` domain),
 * so every product below is exact before its one rounding.
 */
module Pricing {
  import opened Common

  const MS_PER_MINUTE := 60_000
  const MINUTES_PER_HOUR := 60
  const MINUTES_PER_NIGHT := 24 * 60
  const SERVICE_FEE_PCT := 3
  const VAT_PCT := 15
  const FULL_PCT := 10_000

  datatype BookingType = Hourly | Nightly

  datatype BookableUnit = BookableUnit(
    supportsHourly: bool,
    supportsNightly: bool,
    currency: string,
    nightlyRate: Option<nat>,
    hourlyRate: Option<nat>,
    minHourlyMinutes: int,
    commissionOverride: Option<int>)

  datatype Settings = Settings(maxHourlyHours: int, defaultCommission: int)

  /** The money snapshot that a quote hands to the booking row. */
  datatype Money = Money(
    base: int,
    cleaning: int,
    service: int,
    taxes: int,
    discount: int,
    total: int,
    commissionPct: int,
    commission: int,
    hostPayout: int)

  datatype PricingError = ValidationFailed | NotBookable

  /** Math.round(n / d): the nearest integer, halves towards plus infinity. */
  function RoundDiv(n: int, d: int): (r: int)
    requires d > 0
    ensures 2 * d * r - d <= 2 * n < 2 * d * r + d
  {
    (2 * n + d) / (2 * d)
  }

  function HourlyBase(unit: BookableUnit, settings: Settings, minutes: int): Result<int, PricingError> {
    if !unit.supportsHourly || unit.hourlyRate.None? then Failure(NotBookable)
    else if minutes < unit.minHourlyMinutes then Failure(ValidationFailed)
    else if minutes > settings.maxHourlyHours * MINUTES_PER_HOUR then Failure(ValidationFailed)
    else if minutes % MINUTES_PER_HOUR != 0 then Failure(ValidationFailed)
    else Success((minutes / MINUTES_PER_HOUR) * unit.hourlyRate.value)
  }

  function NightlyBase(unit: BookableUnit, minutes: int): Result<int, PricingError> {
    if !unit.supportsNightly || unit.nightlyRate.None? then Failure(NotBookable)
    else if minutes % MINUTES_PER_NIGHT != 0 then Failure(ValidationFailed)
    else Success((minutes / MINUTES_PER_NIGHT) * unit.nightlyRate.value)
  }

  function BaseAmount(unit: BookableUnit, settings: Settings, kind: BookingType, minutes: int): Result<int, PricingError> {
    if kind == Hourly then HourlyBase(unit, settings, minutes) else NightlyBase(unit, minutes)
  }

  function Discount(base: int, discountPct: int): int {
    RoundDiv(base * discountPct, FULL_PCT)
  }

  function NetBase(base: int, discountPct: int): int {
    base - Discount(base, discountPct)
  }

  function ServiceFee(net: int): int {
    RoundDiv(net * SERVICE_FEE_PCT, 100)
  }

  function Taxes(net: int): int {
    RoundDiv((net + ServiceFee(net)) * VAT_PCT, 100)
  }

  function Commission(net: int, commissionPct: int): int {
    RoundDiv(net * commissionPct, FULL_PCT)
  }

  function MoneyFor(base: int, discountPct: int, commissionPct: int): Money {
    var net := NetBase(base, discountPct);
    var commission := Commission(net, commissionPct);
    Money(
      base, 0, ServiceFee(net), Taxes(net), Discount(base, discountPct),
      base + 0 + ServiceFee(net) + Taxes(net) - Discount(base, discountPct),
      commissionPct, commission, net - commission)
  }

  function Quote(
    unit: BookableUnit, settings: Settings, kind: BookingType,
    checkIn: int, checkOut: int, discountPct: int)
    : Result<Money, PricingError>
  {
    var elapsed := checkOut - checkIn;
    if elapsed % MS_PER_MINUTE != 0 || elapsed <= 0 then Failure(ValidationFailed)
    else
      var base := BaseAmount(unit, settings, kind, elapsed / MS_PER_MINUTE);
      if base.Failure? then Failure(base.error)
      else if discountPct < 0 || discountPct > FULL_PCT then Failure(ValidationFailed)
      else
        var pct := if unit.commissionOverride.Some? then unit.commissionOverride.value else settings.defaultCommission;
        Success(MoneyFor(base.value, discountPct, pct))
  }

  /** The host's share of a stay, the platform's revenue, and the tax collected. */
  function HostShare(m: Money): int {
    m.hostPayout + m.cleaning
  }

  function Revenue(m: Money): int {
    m.commission + m.service
  }

  /** The CHECK constraints and domains that the bookings table puts on its money columns. */
  predicate MoneyChecks(m: Money) {
    && 0 <= m.base && 0 <= m.cleaning && 0 <= m.service && 0 <= m.taxes
    && 0 <= m.discount && 0 <= m.total && 0 <= m.commission && 0 <= m.hostPayout
    && 0 <= m.commissionPct <= FULL_PCT
    && m.total == m.base + m.cleaning + m.service + m.taxes - m.discount
    && m.commission + m.hostPayout == m.base - m.discount
  }

  lemma BaseNonNegative(unit: BookableUnit, settings: Settings, kind: BookingType, minutes: int)
    requires minutes > 0
    requires BaseAmount(unit, settings, kind, minutes).Success?
    ensures 0 <= BaseAmount(unit, settings, kind, minutes).value
  {
    if kind == Hourly {
      MulNonNegative(minutes / MINUTES_PER_HOUR, unit.hourlyRate.value);
    } else {
      MulNonNegative(minutes / MINUTES_PER_NIGHT, unit.nightlyRate.value);
    }
  }

  lemma MulNonNegative(a: int, b: int)
    requires 0 <= a && 0 <= b
    ensures 0 <= a * b
  {
  }

  lemma MulMonotone(a: int, b: int, c: int)
    requires a <= b && 0 <= c
    ensures a * c <= b * c
  {
  }

  /** A percentage in range never takes more than the whole, nor less than nothing. */
  lemma PercentageOf(amount: int, pct: int)
    requires 0 <= amount && 0 <= pct <= FULL_PCT
    ensures 0 <= RoundDiv(amount * pct, FULL_PCT) <= amount
  {
    MulNonNegative(amount, pct);
    MulMonotone(pct, FULL_PCT, amount);
  }

  /**
   * A quote with a base and a discount in range satisfies every money CHECK of the
   * bookings table exactly when its commission percentage is in the table's domain.
   */
  lemma QuotePassesChecks(base: int, discountPct: int, commissionPct: int)
    requires 0 <= base && 0 <= discountPct <= FULL_PCT
    ensures MoneyChecks(MoneyFor(base, discountPct, commissionPct)) <==> 0 <= commissionPct <= FULL_PCT
  {
    PercentageOf(base, discountPct);
    var net := NetBase(base, discountPct);
    if 0 <= commissionPct <= FULL_PCT {
      PercentageOf(net, commissionPct);
    }
  }

  /** The same statement for `Quote` itself, over every unit, window and discount. */
  lemma QuoteAlwaysInsertable(
    unit: BookableUnit, settings: Settings, kind: BookingType,
    checkIn: int, checkOut: int, discountPct: int)
    ensures
      var quote := Quote(unit, settings, kind, checkIn, checkOut, discountPct);
      quote.Success? ==> (MoneyChecks(quote.value) <==> 0 <= quote.value.commissionPct <= FULL_PCT)
  {
    var quote := Quote(unit, settings, kind, checkIn, checkOut, discountPct);
    if quote.Success? {
      var minutes := (checkOut - checkIn) / MS_PER_MINUTE;
      BaseNonNegative(unit, settings, kind, minutes);
      QuotePassesChecks(BaseAmount(unit, settings, kind, minutes).value, discountPct, quote.value.commissionPct);
    }
  }

  /** The derived amounts of a quote, each its percentage rounded once, halves up; the host gets what the commission leaves. */
  lemma MoneyByPercentage(base: int, discountPct: int, commissionPct: int)
    ensures
      var m := MoneyFor(base, discountPct, commissionPct);
      var net := m.base - m.discount;
      && m.base == base && m.commissionPct == commissionPct && m.cleaning == 0
      && -5_000 <= base * discountPct - 10_000 * m.discount < 5_000
      && -50 <= 3 * net - 100 * m.service < 50
      && -50 <= 15 * (net + m.service) - 100 * m.taxes < 50
      && -5_000 <= net * commissionPct - 10_000 * m.commission < 5_000
      && m.total == net + m.service + m.taxes && m.hostPayout == net - m.commission
  {
  }

  /**
   * What a quote is, by rate, duration and percentages: the base is the rate of the
   * stay's whole hours or nights, the commission is the unit's own or the default one,
   * and each derived amount is its percentage rounded once, halves up.
   */
  lemma QuoteByRate(
    unit: BookableUnit, settings: Settings, kind: BookingType,
    checkIn: int, checkOut: int, discountPct: int)
    ensures
      var quote := Quote(unit, settings, kind, checkIn, checkOut, discountPct);
      quote.Success? ==>
        var m := quote.value;
        var net := m.base - m.discount;
        && (kind == Hourly ==> unit.hourlyRate.Some? && 3_600_000 * m.base == (checkOut - checkIn) * unit.hourlyRate.value)
        && (kind == Nightly ==> unit.nightlyRate.Some? && 86_400_000 * m.base == (checkOut - checkIn) * unit.nightlyRate.value)
        && m.commissionPct == (if unit.commissionOverride.Some? then unit.commissionOverride.value else settings.defaultCommission)
        && -5_000 <= m.base * discountPct - 10_000 * m.discount < 5_000
        && -50 <= 3 * net - 100 * m.service < 50
        && -50 <= 15 * (net + m.service) - 100 * m.taxes < 50
        && -5_000 <= net * m.commissionPct - 10_000 * m.commission < 5_000
        && m.cleaning == 0 && m.total == net + m.service + m.taxes && m.hostPayout == net - m.commission
  {
    var quote := Quote(unit, settings, kind, checkIn, checkOut, discountPct);
    if quote.Success? {
      BaseByRate(unit, settings, kind, checkOut - checkIn);
      MoneyByPercentage(quote.value.base, discountPct, quote.value.commissionPct);
      hide MoneyFor, BaseAmount;
    }
  }

  lemma BaseByRate(unit: BookableUnit, settings: Settings, kind: BookingType, elapsed: int)
    requires elapsed % 60_000 == 0 && BaseAmount(unit, settings, kind, elapsed / 60_000).Success?
    ensures
      var base := BaseAmount(unit, settings, kind, elapsed / 60_000).value;
      && (kind == Hourly ==> unit.hourlyRate.Some? && 3_600_000 * base == elapsed * unit.hourlyRate.value)
      && (kind == Nightly ==> unit.nightlyRate.Some? && 86_400_000 * base == elapsed * unit.nightlyRate.value)
  {
    if kind == Hourly {
      WholeUnits(elapsed, 60, unit.hourlyRate.value);
    } else {
      WholeUnits(elapsed, 1_440, unit.nightlyRate.value);
    }
  }

  /** Whole units of so many minutes each, charged at a rate per unit. */
  lemma WholeUnits(elapsed: int, minutes: int, rate: int)
    requires minutes > 0 && elapsed % 60_000 == 0 && elapsed / 60_000 % minutes == 0
    ensures 60_000 * minutes * (elapsed / 60_000 / minutes * rate) == elapsed * rate
  {
    var n := elapsed / 60_000 / minutes;
    assert elapsed == 60_000 * (minutes * n);
  }

  lemma HourInMinutes(minutes: int)
    ensures 60_000 * minutes % 3_600_000 == 60_000 * (minutes % 60)
  {
    var q, r := minutes / 60, minutes % 60;
    assert minutes == 60 * q + r;
    assert 60_000 * minutes == 3_600_000 * q + 60_000 * r;
  }

  lemma NightInMinutes(minutes: int)
    ensures 60_000 * minutes % 86_400_000 == 60_000 * (minutes % 1_440)
  {
    var q, r := minutes / 1_440, minutes % 1_440;
    assert minutes == 1_440 * q + r;
    assert 60_000 * minutes == 86_400_000 * q + 60_000 * r;
  }

  lemma LengthInMinutes(elapsed: int)
    requires elapsed % 60_000 == 0
    ensures
      var minutes := elapsed / 60_000;
      && elapsed == 60_000 * minutes
      && (minutes % 60 == 0 <==> elapsed % 3_600_000 == 0) && (minutes % 1_440 == 0 <==> elapsed % 86_400_000 == 0)
  {
    var minutes := elapsed / 60_000;
    HourInMinutes(minutes);
    NightInMinutes(minutes);
    assert elapsed == 60_000 * minutes;
  }

  predicate Offered(unit: BookableUnit, kind: BookingType) {
    if kind == Hourly then unit.supportsHourly && unit.hourlyRate.Some? else unit.supportsNightly && unit.nightlyRate.Some?
  }

  /** Which stays are refused, and how: those the unit does not offer, and those of a wrong length or with a discount out of range. */
  lemma QuoteRefusals(
    unit: BookableUnit, settings: Settings, kind: BookingType,
    checkIn: int, checkOut: int, discountPct: int)
    ensures
      var quote := Quote(unit, settings, kind, checkIn, checkOut, discountPct);
      var elapsed := checkOut - checkIn;
      var wholeMinutes := elapsed > 0 && elapsed % 60_000 == 0;
      var lengthFits :=
        if kind == Hourly
        then 60_000 * unit.minHourlyMinutes <= elapsed <= 3_600_000 * settings.maxHourlyHours && elapsed % 3_600_000 == 0
        else elapsed % 86_400_000 == 0;
      && (quote.Success? <==> wholeMinutes && Offered(unit, kind) && lengthFits && 0 <= discountPct <= 10_000)
      && (quote == Failure(NotBookable) <==> wholeMinutes && !Offered(unit, kind))
  {
    if (checkOut - checkIn) % 60_000 == 0 {
      BaseRefusals(unit, settings, kind, checkOut - checkIn);
    }
    hide BaseAmount, MoneyFor;
  }

  lemma BaseRefusals(unit: BookableUnit, settings: Settings, kind: BookingType, elapsed: int)
    requires elapsed % 60_000 == 0
    ensures
      var base := BaseAmount(unit, settings, kind, elapsed / 60_000);
      var lengthFits :=
        if kind == Hourly
        then 60_000 * unit.minHourlyMinutes <= elapsed <= 3_600_000 * settings.maxHourlyHours && elapsed % 3_600_000 == 0
        else elapsed % 86_400_000 == 0;
      && (base.Success? <==> Offered(unit, kind) && lengthFits)
      && (base == Failure(NotBookable) <==> !Offered(unit, kind))
  {
    LengthInMinutes(elapsed);
  }

  /** The three credit legs of the escrow split add up to the amount the guest paid. */
  lemma SplitIsExact(m: Money)
    requires MoneyChecks(m)
    ensures HostShare(m) + Revenue(m) + m.taxes == m.total
    ensures 0 <= HostShare(m) <= m.total && 0 <= Revenue(m) <= m.total && 0 <= m.taxes <= m.total
  {
  }

  /**
   * The host's payout is positive exactly when the commission leaves the host more
   * than half a minor unit. This is the condition under which the payouts table,
   * which demands a positive amount, accepts the split of a stay.
   */
  lemma HostIsPaidIff(base: int, discountPct: int, commissionPct: int)
    ensures
      HostShare(MoneyFor(base, discountPct, commissionPct)) > 0
      <==> NetBase(base, discountPct) * (FULL_PCT - commissionPct) > FULL_PCT / 2
  {
    var net := NetBase(base, discountPct);
    assert net * (FULL_PCT - commissionPct) == net * FULL_PCT - net * commissionPct;
  }

  /** An example: a commission of one hundred percent leaves nothing to pay out. */
  lemma FullCommissionPaysNoHost(base: int, discountPct: int)
    requires 0 <= base && 0 <= discountPct <= FULL_PCT
    ensures MoneyChecks(MoneyFor(base, discountPct, FULL_PCT))
    ensures HostShare(MoneyFor(base, discountPct, FULL_PCT)) == 0
  {
    QuotePassesChecks(base, discountPct, FULL_PCT);
    HostIsPaidIff(base, discountPct, FULL_PCT);
  }

  /** Two roundings keep the total within 1.075 minor units of 118.45% of the net base. */
  lemma TotalRoundingBound(base: int, discountPct: int, commissionPct: int)
    ensures
      var m := MoneyFor(base, discountPct, commissionPct);
      -10_750 <= 10_000 * m.total - 11_845 * (m.base - m.discount) <= 10_750
  {
  }

  lemma TotalMonotoneInNet(net: int, net': int)
    requires net <= net'
    ensures net + ServiceFee(net) + Taxes(net) <= net' + ServiceFee(net') + Taxes(net')
  {
  }

  lemma NetMonotoneInBase(base: int, base': int, discountPct: int)
    requires base <= base' && 0 <= discountPct <= FULL_PCT
    ensures NetBase(base, discountPct) <= NetBase(base', discountPct)
  {
    var d := base' - base;
    MulMonotone(discountPct, FULL_PCT, d);
    assert base' * discountPct == base * discountPct + d * discountPct;
    assert base' * discountPct <= base * discountPct + d * FULL_PCT;
  }

  lemma BaseMonotoneInDuration(unit: BookableUnit, settings: Settings, kind: BookingType, minutes: int, minutes': int)
    requires 0 < minutes <= minutes'
    requires BaseAmount(unit, settings, kind, minutes).Success?
    requires BaseAmount(unit, settings, kind, minutes').Success?
    ensures BaseAmount(unit, settings, kind, minutes).value <= BaseAmount(unit, settings, kind, minutes').value
  {
    if kind == Hourly {
      MulMonotone(minutes / MINUTES_PER_HOUR, minutes' / MINUTES_PER_HOUR, unit.hourlyRate.value);
    } else {
      MulMonotone(minutes / MINUTES_PER_NIGHT, minutes' / MINUTES_PER_NIGHT, unit.nightlyRate.value);
    }
  }

  /** A longer stay never costs less. */
  lemma TotalMonotoneInDuration(
    unit: BookableUnit, settings: Settings, kind: BookingType,
    checkIn: int, checkOut: int, checkOut': int, discountPct: int)
    requires checkOut <= checkOut'
    ensures
      var quote := Quote(unit, settings, kind, checkIn, checkOut, discountPct);
      var quote' := Quote(unit, settings, kind, checkIn, checkOut', discountPct);
      quote.Success? && quote'.Success? ==> quote.value.total <= quote'.value.total
  {
    var minutes, minutes' := (checkOut - checkIn) / MS_PER_MINUTE, (checkOut' - checkIn) / MS_PER_MINUTE;
    if && Quote(unit, settings, kind, checkIn, checkOut, discountPct).Success?
       && Quote(unit, settings, kind, checkIn, checkOut', discountPct).Success?
    {
      BaseMonotoneInDuration(unit, settings, kind, minutes, minutes');
      var base := BaseAmount(unit, settings, kind, minutes).value;
      var base' := BaseAmount(unit, settings, kind, minutes').value;
      NetMonotoneInBase(base, base', discountPct);
      TotalMonotoneInNet(NetBase(base, discountPct), NetBase(base', discountPct));
    }
  }

  lemma NetAntitoneInDiscount(base: int, discountPct: int, discountPct': int)
    requires 0 <= base && discountPct <= discountPct'
    ensures NetBase(base, discountPct') <= NetBase(base, discountPct)
  {
    MulMonotone(discountPct, discountPct', base);
  }

  /** A larger discount never raises the total. */
  lemma TotalAntitoneInDiscount(
    unit: BookableUnit, settings: Settings, kind: BookingType,
    checkIn: int, checkOut: int, discountPct: int, discountPct': int)
    requires discountPct <= discountPct'
    ensures
      var quote := Quote(unit, settings, kind, checkIn, checkOut, discountPct);
      var quote' := Quote(unit, settings, kind, checkIn, checkOut, discountPct');
      quote.Success? && quote'.Success? ==> quote'.value.total <= quote.value.total
  {
    var minutes := (checkOut - checkIn) / MS_PER_MINUTE;
    if && Quote(unit, settings, kind, checkIn, checkOut, discountPct).Success?
       && Quote(unit, settings, kind, checkIn, checkOut, discountPct').Success?
    {
      BaseNonNegative(unit, settings, kind, minutes);
      var base := BaseAmount(unit, settings, kind, minutes).value;
      NetAntitoneInDiscount(base, discountPct, discountPct');
      hide RoundDiv, BaseAmount;
      TotalMonotoneInNet(NetBase(base, discountPct'), NetBase(base, discountPct));
    }
  }
}
