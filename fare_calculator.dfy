/** The fare calculator of src/utils/fareCalculator.ts: a total function from
    (bus category, origin, destination, bus class) to a display fare and a
    distance. Distances are integer hundredths of a kilometre, coordinates
    integer ten-thousandths of a degree, and the great-circle arc itself is a
    parameter (the haversine trigonometry is not modelled). */
module FareCalculator {
  import opened Common
  import opened Text

  // ---------------------------------------------------------------------------
  // Location resolver
  // ---------------------------------------------------------------------------

  /** A latitude/longitude pair in ten-thousandths of a degree. */
  datatype Coord = Coord(lat: int, lng: int)

  /** The fallback hub for names the registry does not know. */
  const Hub: string := "hyderabad"

  /** The nine registered places, keyed by lower-case name. */
  const Registry: map<string, Coord> := map[
    "hyderabad" := Coord(173850, 784867),
    "karimnagar" := Coord(184386, 791288),
    "khammam" := Coord(172473, 801514),
    "mancherial" := Coord(188718, 794506),
    "srisailam" := Coord(160739, 788682),
    "vijayawada" := Coord(165062, 806480),
    "bangalore" := Coord(129716, 775946),
    "kurnool" := Coord(158281, 780373),
    "ananthapur" := Coord(146819, 776006)
  ]

  /** The coordinate of a place name: a case-insensitive registry match,
      otherwise the hub. Never fails. */
  function Resolve(name: string): (c: Coord)
    ensures c in Registry.Values
    ensures Lower(name) in Registry ==> c == Registry[Lower(name)]
    ensures Lower(name) !in Registry ==> c == Registry[Hub]
  {
    var key := Lower(name);
    if key in Registry then Registry[key] else Registry[Hub]
  }

  /** Names that lower-case alike resolve alike. */
  lemma ResolveCaseInsensitive(a: string, b: string)
    requires Lower(a) == Lower(b)
    ensures Resolve(a) == Resolve(b)
  {
  }

  // ---------------------------------------------------------------------------
  // Distance
  // ---------------------------------------------------------------------------

  /** What the haversine arc (in km) is relied on for: it is never negative,
      it does not depend on direction, and it is zero between a point and itself. */
  ghost predicate IsGreatCircle(arc: (Coord, Coord) -> real) {
    && (forall a, b :: arc(a, b) >= 0.0)
    && (forall a, b :: arc(a, b) == arc(b, a))
    && (forall a :: arc(a, a) == 0.0)
  }

  /** `Math.round(km * 100)`: the nearest whole number of hundredths, halves rounded up. */
  function Hundredths(km: real): (h: nat)
    requires km >= 0.0
    ensures h as real - 0.5 <= 100.0 * km < h as real + 0.5
  {
    (100.0 * km + 0.5).Floor
  }

  /** The distance between two places in hundredths of a km: the arc between
      their resolved coordinates, rounded to two decimals. */
  function Distance(from: string, to: string, arc: (Coord, Coord) -> real): (dh: nat)
    requires IsGreatCircle(arc)
    ensures dh as real - 0.5 <= 100.0 * arc(Resolve(from), Resolve(to)) < dh as real + 0.5
    ensures Resolve(from) == Resolve(to) ==> dh == 0
  {
    Hundredths(arc(Resolve(from), Resolve(to)))
  }

  /** The distance does not depend on the direction of travel. */
  lemma DistanceSymmetric(from: string, to: string, arc: (Coord, Coord) -> real)
    requires IsGreatCircle(arc)
    ensures Distance(from, to, arc) == Distance(to, from, arc)
  {
  }

  /** Two names that are not registered both fall back to the hub, so the distance is 0. */
  lemma UnknownPlacesAreZeroApart(from: string, to: string, arc: (Coord, Coord) -> real)
    requires IsGreatCircle(arc)
    requires Lower(from) !in Registry && Lower(to) !in Registry
    ensures Distance(from, to, arc) == 0
  {
  }

  // ---------------------------------------------------------------------------
  // Rounding
  // ---------------------------------------------------------------------------

  /** `Math.round(p / q)` for a non-negative rational: the integer r with
      r - 1/2 <= p/q < r + 1/2. */
  function RoundDiv(p: nat, q: nat): (r: nat)
    requires q > 0
    ensures 2 * q * r <= 2 * p + q < 2 * q * r + 2 * q
  {
    var n, d := 2 * p + q, 2 * q;
    assert n == d * (n / d) + n % d;
    n / d
  }

  /** Half-up rounding is the only integer within a half of p/q. */
  lemma RoundDivUnique(p: nat, q: nat, r: int)
    requires q > 0
    requires 2 * q * r <= 2 * p + q < 2 * q * r + 2 * q
    ensures r == RoundDiv(p, q)
  {
    var s := RoundDiv(p, q);
    if r < s {
      MulMonotone(2 * q, r + 1, s);
    } else if r > s {
      MulMonotone(2 * q, s + 1, r);
    }
  }

  lemma MulMonotone(k: nat, x: int, y: int)
    requires x <= y
    ensures k * x <= k * y
  {
  }

  /** Rounding is monotone in the numerator. */
  lemma {:induction false} RoundDivMonotone(p1: nat, p2: nat, q: nat)
    requires q > 0 && p1 <= p2
    ensures RoundDiv(p1, q) <= RoundDiv(p2, q)
  {
    var r1, r2 := RoundDiv(p1, q), RoundDiv(p2, q);
    if r2 < r1 {
      MulMonotone(2 * q, r2 + 1, r1);
    }
  }

  /** Adding k whole units before rounding adds k after. */
  lemma RoundDivShift(p: nat, q: nat, k: nat)
    requires q > 0
    ensures RoundDiv(p + k * q, q) == RoundDiv(p, q) + k
  {
    var r := RoundDiv(p, q);
    assert 2 * q * (r + k) == 2 * q * r + 2 * (k * q);
    RoundDivUnique(p + k * q, q, r + k);
  }

  /** `Math.round(base + rate * d)` for d = dh / 100 km and a rate given in
      tenths of a rupee per km. */
  function Linear(base: nat, rateTenths: nat, dh: nat): (r: nat)
    ensures 2000 * r <= 2000 * base + 2 * rateTenths * dh + 1000 < 2000 * r + 2000
  {
    RoundDiv(1000 * base + rateTenths * dh, 1000)
  }

  /** The linear fares grow with distance. */
  lemma LinearMonotone(base: nat, rateTenths: nat, dh1: nat, dh2: nat)
    requires dh1 <= dh2
    ensures Linear(base, rateTenths, dh1) <= Linear(base, rateTenths, dh2)
  {
    MulMonotone(rateTenths, dh1, dh2);
    RoundDivMonotone(1000 * base + rateTenths * dh1, 1000 * base + rateTenths * dh2, 1000);
  }

  // ---------------------------------------------------------------------------
  // Fares and their display form
  // ---------------------------------------------------------------------------

  /** The three shapes a displayed fare takes. */
  datatype Fare = Single(amount: nat) | Range(lo: nat, hi: nat) | AtLeast(amount: nat)

  const Rupee: char := '₹'

  /** The display string: "₹n", "₹lo - ₹hi" or "₹n+". */
  function Render(f: Fare): (s: string)
    ensures |s| > 1 && s[0] == Rupee
  {
    match f
    case Single(n) => [Rupee] + NatToString(n)
    case Range(lo, hi) => [Rupee] + NatToString(lo) + " - " + [Rupee] + NatToString(hi)
    case AtLeast(n) => [Rupee] + NatToString(n) + "+"
  }

  /** Reads a display string back into a fare; None for any other string. */
  function ParseFare(s: string): (r: Option<Fare>)
    ensures r.Some? ==> |s| > 1 && s[0] == Rupee
  {
    if |s| == 0 || s[0] != Rupee then None
    else
      var body := s[1..];
      var k := DigitRun(body);
      if k == 0 then None
      else
        var n := DigitsValue(body[..k]);
        var rest := body[k..];
        if rest == [] then Some(Single(n))
        else if rest == "+" then Some(AtLeast(n))
        else if |rest| > 4 && rest[..4] == " - " + [Rupee] && DigitRun(rest[4..]) == |rest| - 4 then
          Some(Range(n, DigitsValue(rest[4..])))
        else None
  }

  /** Every displayed fare reads back as the fare it displays. */
  lemma ParseRender(f: Fare)
    ensures ParseFare(Render(f)) == Some(f)
  {
    match f
    case Single(n) => ParseRenderSingle(n);
    case AtLeast(n) => ParseRenderAtLeast(n);
    case Range(lo, hi) => ParseRenderRange(lo, hi);
  }

  lemma ParseRenderSingle(n: nat)
    ensures ParseFare(Render(Single(n))) == Some(Single(n))
  {
    var s, d := Render(Single(n)), NatToString(n);
    assert s[1..] == d + [];
    DigitRunOfDigitsThen(d, []);
    assert s[1..][..|d|] == d;
    DigitsValueOfNatToString(n);
  }

  lemma ParseRenderAtLeast(n: nat)
    ensures ParseFare(Render(AtLeast(n))) == Some(AtLeast(n))
  {
    var s, d := Render(AtLeast(n)), NatToString(n);
    assert s[1..] == d + "+";
    DigitRunOfDigitsThen(d, "+");
    assert s[1..][..|d|] == d;
    assert s[1..][|d|..] == "+";
    DigitsValueOfNatToString(n);
  }

  lemma ParseRenderRange(lo: nat, hi: nat)
    ensures ParseFare(Render(Range(lo, hi))) == Some(Range(lo, hi))
  {
    var s, d, e := Render(Range(lo, hi)), NatToString(lo), NatToString(hi);
    var tail := " - " + [Rupee] + e;
    assert s[1..] == d + tail;
    DigitRunOfDigitsThen(d, tail);
    assert s[1..][..|d|] == d;
    assert s[1..][|d|..] == tail;
    assert tail[..4] == " - " + [Rupee];
    assert tail[4..] == e + [];
    DigitRunOfDigitsThen(e, []);
    DigitsValueOfNatToString(lo);
    DigitsValueOfNatToString(hi);
  }

  /** Different fares never display alike. */
  lemma RenderInjective(f: Fare, g: Fare)
    requires Render(f) == Render(g)
    ensures f == g
  {
    ParseRender(f);
    ParseRender(g);
  }

  /** The lowest amount a fare asks for. */
  function Low(f: Fare): nat {
    match f
    case Single(n) => n
    case Range(lo, _) => lo
    case AtLeast(n) => n
  }

  // ---------------------------------------------------------------------------
  // Local and district pricing
  // ---------------------------------------------------------------------------

  const CityOrdinary: string := "City Ordinary"
  const MetroExpress: string := "Metro Express (Non-AC)"
  const MetroDeluxe: string := "Metro Deluxe"
  const Deluxe: string := "Deluxe"
  const SuperLuxury: string := "Super-Luxury"

  /** The switch on the bus class for local and district buses; dh is the distance in hundredths of a km. */
  function LocalFare(busName: string, dh: nat): (f: Fare)
  {
    if busName == CityOrdinary then
      if dh <= 400 then Single(10) else if dh <= 600 then Single(15) else Single(Linear(10, 25, dh))
    else if busName == MetroExpress then
      if dh <= 200 then Single(10) else if dh <= 600 then Single(20) else Single(Linear(10, 30, dh))
    else if busName == MetroDeluxe then
      Single(Linear(15, 20, dh))
    else if busName == Deluxe then
      if dh <= 600 then Range(15, 20) else Range(Linear(15, 20, dh), Linear(20, 20, dh))
    else if busName == SuperLuxury then
      if dh <= 1500 then Range(40, 70) else if dh <= 3000 then Range(70, 100) else AtLeast(Linear(70, 20, dh))
    else
      Range(10, 20)
  }

  // ---------------------------------------------------------------------------
  // State pricing
  // ---------------------------------------------------------------------------

  const Garuda: string := "Garuda"
  const Vajra: string := "Vajra"

  /** The hyphen-joined route key of two lower-case names. */
  function Key(a: string, b: string): (k: string)
    ensures |k| == |a| + 1 + |b| && k[|a|] == '-'
  {
    a + "-" + b
  }

  /** The key the calculator looks up for a trip from `from` to `to`. */
  function RouteKey(from: string, to: string): string {
    Key(Lower(from), Lower(to))
  }

  /** Flat Garuda prices in rupees per route key. */
  const GarudaPrices: map<string, nat> := map[
    Key("hyderabad", "karimnagar") := 231,
    Key("hyderabad", "khammam") := 296,
    Key("hyderabad", "mancherial") := 348,
    Key("srisailam", "hyderabad") := 369,
    Key("hyderabad", "srisailam") := 345,
    Key("hyderabad", "vijayawada") := 363,
    Key("hyderabad", "bangalore") := 631,
    Key("bangalore", "hyderabad") := 674,
    Key("hyderabad", "kurnool") := 278,
    Key("hyderabad", "ananthapur") := 471
  ]

  /** Flat Vajra prices in rupees per route key. */
  const VajraPrices: map<string, nat> := map[
    Key("hyderabad", "karimnagar") := 231,
    Key("hyderabad", "khammam") := 296,
    Key("hyderabad", "mancherial") := 348,
    Key("hyderabad", "vijayawada") := 352,
    Key("hyderabad", "bangalore") := 674,
    Key("hyderabad", "kurnool") := 278
  ]

  /** `prices[routeKey] || prices[reverseRouteKey]`: the forward key first,
      the reversed key only when the forward one is absent. */
  function LookupRoute(prices: map<string, nat>, from: string, to: string): (r: Option<nat>)
    ensures RouteKey(from, to) in prices ==> r == Some(prices[RouteKey(from, to)])
    ensures RouteKey(from, to) !in prices && RouteKey(to, from) in prices ==> r == Some(prices[RouteKey(to, from)])
    ensures r.None? <==> RouteKey(from, to) !in prices && RouteKey(to, from) !in prices
  {
    var forward, reverse := RouteKey(from, to), RouteKey(to, from);
    if forward in prices then Some(prices[forward])
    else if reverse in prices then Some(prices[reverse])
    else None
  }

  /** The state-category branch: table price or linear fallback for Garuda
      (15/km) and Vajra (12/km), a 10/km to 20/km range for any other class. */
  function StateFare(busName: string, from: string, to: string, dh: nat): (f: Fare)
  {
    if busName == Garuda then
      match LookupRoute(GarudaPrices, from, to)
      case Some(p) => Single(p)
      case None => Single(Linear(0, 150, dh))
    else if busName == Vajra then
      match LookupRoute(VajraPrices, from, to)
      case Some(p) => Single(p)
      case None => Single(Linear(0, 120, dh))
    else
      Range(Linear(0, 100, dh), Linear(0, 200, dh))
  }

  /** The fare policy: local and district share one rule set, state has its own. */
  function FareFor(busType: BusType, from: string, to: string, busName: string, dh: nat): (f: Fare)
  {
    if busType == Local || busType == District then LocalFare(busName, dh) else StateFare(busName, from, to, dh)
  }

  /** What `calculateFare` returns: the display fare and the distance in hundredths of a km. */
  datatype Quote = Quote(fare: string, distance: nat)

  /** `calculateFare(busType, from, to, busName)`, with the great-circle arc as a parameter. */
  function CalculateFare(busType: BusType, from: string, to: string, busName: string,
                         arc: (Coord, Coord) -> real): (q: Quote)
    requires IsGreatCircle(arc)
    ensures |q.fare| > 1 && q.fare[0] == Rupee
    ensures q.distance as real - 0.5 <= 100.0 * arc(Resolve(from), Resolve(to)) < q.distance as real + 0.5
    ensures ParseFare(q.fare) == Some(FareFor(busType, from, to, busName, q.distance))
    ensures q.fare == Render(FareFor(busType, from, to, busName, q.distance))
  {
    var dh := Distance(from, to, arc);
    var f := FareFor(busType, from, to, busName, dh);
    ParseRender(f);
    Quote(Render(f), dh)
  }

  // ---------------------------------------------------------------------------
  // Properties of the fare policy
  // ---------------------------------------------------------------------------

  /** The category only separates state from non-state: local and district price alike. */
  lemma LocalAndDistrictAgree(from: string, to: string, busName: string, dh: nat)
    ensures FareFor(Local, from, to, busName, dh) == FareFor(District, from, to, busName, dh)
    ensures FareFor(Local, from, to, busName, dh) == LocalFare(busName, dh)
  {
  }

  /** City Ordinary: ₹10 up to 4 km, ₹15 up to 6 km, then round(10 + 2.5 d). */
  lemma CityOrdinaryBands(dh: nat)
    ensures dh <= 400 ==> LocalFare(CityOrdinary, dh) == Single(10)
    ensures 400 < dh <= 600 ==> LocalFare(CityOrdinary, dh) == Single(15)
    ensures 600 < dh ==> LocalFare(CityOrdinary, dh) == Single(Linear(10, 25, dh))
    ensures 600 < dh ==> LocalFare(CityOrdinary, dh).amount >= 25
    ensures LocalFare(CityOrdinary, 300) == Single(10) && LocalFare(CityOrdinary, 1000) == Single(35)
  {
    if 600 < dh {
      LinearMonotone(10, 25, 601, dh);
    }
  }

  /** Metro Express (Non-AC): ₹10 up to 2 km, ₹20 up to 6 km, then round(10 + 3 d). */
  lemma MetroExpressBands(dh: nat)
    ensures dh <= 200 ==> LocalFare(MetroExpress, dh) == Single(10)
    ensures 200 < dh <= 600 ==> LocalFare(MetroExpress, dh) == Single(20)
    ensures 600 < dh ==> LocalFare(MetroExpress, dh) == Single(Linear(10, 30, dh))
    ensures 600 < dh ==> LocalFare(MetroExpress, dh).amount >= 28
  {
    if 600 < dh {
      LinearMonotone(10, 30, 601, dh);
    }
  }

  /** Metro Deluxe is always one amount, round(15 + 2 d), at least ₹15. */
  lemma MetroDeluxeSingle(dh: nat)
    ensures LocalFare(MetroDeluxe, dh) == Single(Linear(15, 20, dh))
    ensures LocalFare(MetroDeluxe, dh).amount >= 15
    ensures LocalFare(MetroDeluxe, 1000) == Single(35)
  {
    LinearMonotone(15, 20, 0, dh);
  }

  /** Deluxe is always a range whose upper bound is exactly ₹5 above its lower bound;
      beyond 6 km the lower bound is round(15 + 2 d). */
  lemma {:induction false} DeluxeRangeWidth(dh: nat)
    ensures LocalFare(Deluxe, dh).Range?
    ensures LocalFare(Deluxe, dh).hi == LocalFare(Deluxe, dh).lo + 5
    ensures dh <= 600 ==> LocalFare(Deluxe, dh) == Range(15, 20)
    ensures 600 < dh ==> LocalFare(Deluxe, dh).lo == Linear(15, 20, dh)
  {
    if dh > 600 {
      RoundDivShift(1000 * 15 + 20 * dh, 1000, 5);
      assert 1000 * 15 + 20 * dh + 5 * 1000 == 1000 * 20 + 20 * dh;
    }
  }

  /** Super-Luxury: "₹40 - ₹70" up to 15 km, "₹70 - ₹100" up to 30 km, then an
      open-ended fare of round(70 + 2 d), which is at least ₹130. */
  lemma SuperLuxuryBands(dh: nat)
    ensures dh <= 1500 ==> LocalFare(SuperLuxury, dh) == Range(40, 70)
    ensures 1500 < dh <= 3000 ==> LocalFare(SuperLuxury, dh) == Range(70, 100)
    ensures 3000 < dh ==> LocalFare(SuperLuxury, dh) == AtLeast(Linear(70, 20, dh))
    ensures 3000 < dh ==> LocalFare(SuperLuxury, dh).amount >= 130
    ensures Render(LocalFare(SuperLuxury, 3100)) == "₹132+"
  {
    if 3000 < dh {
      LinearMonotone(70, 20, 3000, dh);
    }
    assert LocalFare(SuperLuxury, 3100) == AtLeast(132);
    assert NatToString(132) == "132";
  }

  /** Any other local or district class costs "₹10 - ₹20" whatever the distance. */
  lemma UnknownLocalClass(busName: string, dh: nat)
    requires busName !in {CityOrdinary, MetroExpress, MetroDeluxe, Deluxe, SuperLuxury}
    ensures LocalFare(busName, dh) == Range(10, 20)
    ensures Render(LocalFare(busName, dh)) == "₹10 - ₹20"
  {
    assert NatToString(10) == "10";
    assert NatToString(20) == "20";
  }

  /** For every local and district class the lowest fare never falls as the distance grows. */
  lemma {:induction false} LocalFareMonotone(busName: string, dh1: nat, dh2: nat)
    requires dh1 <= dh2
    ensures Low(LocalFare(busName, dh1)) <= Low(LocalFare(busName, dh2))
  {
    if busName == CityOrdinary {
      CityOrdinaryBands(dh2);
      if dh1 > 600 { LinearMonotone(10, 25, dh1, dh2); }
    } else if busName == MetroExpress {
      MetroExpressBands(dh2);
      if dh1 > 600 { LinearMonotone(10, 30, dh1, dh2); }
    } else if busName == MetroDeluxe {
      LinearMonotone(15, 20, dh1, dh2);
    } else if busName == Deluxe {
      if dh2 > 600 {
        LinearMonotone(15, 20, 601, dh2);
        if dh1 > 600 { LinearMonotone(15, 20, dh1, dh2); }
      }
    } else if busName == SuperLuxury {
      SuperLuxuryBands(dh2);
      if dh1 > 3000 { LinearMonotone(70, 20, dh1, dh2); }
    }
  }

  /** Any other state class gets round(10 d) to round(20 d): the low bound never
      exceeds the high bound, which is within one rupee of twice the low bound. */
  lemma OtherStateClassRange(busName: string, from: string, to: string, dh: nat)
    requires busName != Garuda && busName != Vajra
    ensures StateFare(busName, from, to, dh) == Range(Linear(0, 100, dh), Linear(0, 200, dh))
    ensures StateFare(busName, from, to, dh).lo <= StateFare(busName, from, to, dh).hi
    ensures 2 * StateFare(busName, from, to, dh).lo - 1 <= StateFare(busName, from, to, dh).hi
              <= 2 * StateFare(busName, from, to, dh).lo + 1
  {
    LinearMonotone(0, 100, dh, dh);
    RoundDivMonotone(100 * dh, 200 * dh, 1000);
  }

  /** Garuda: the forward route price, else the reversed one, else round(15 d). */
  lemma GarudaPricing(from: string, to: string, dh: nat)
    ensures RouteKey(from, to) in GarudaPrices ==>
              StateFare(Garuda, from, to, dh) == Single(GarudaPrices[RouteKey(from, to)])
    ensures RouteKey(from, to) !in GarudaPrices && RouteKey(to, from) in GarudaPrices ==>
              StateFare(Garuda, from, to, dh) == Single(GarudaPrices[RouteKey(to, from)])
    ensures RouteKey(from, to) !in GarudaPrices && RouteKey(to, from) !in GarudaPrices ==>
              StateFare(Garuda, from, to, dh) == Single(Linear(0, 150, dh))
  {
  }

  /** Vajra: the forward route price, else the reversed one, else round(12 d). */
  lemma VajraPricing(from: string, to: string, dh: nat)
    ensures RouteKey(from, to) in VajraPrices ==>
              StateFare(Vajra, from, to, dh) == Single(VajraPrices[RouteKey(from, to)])
    ensures RouteKey(from, to) !in VajraPrices && RouteKey(to, from) in VajraPrices ==>
              StateFare(Vajra, from, to, dh) == Single(VajraPrices[RouteKey(to, from)])
    ensures RouteKey(from, to) !in VajraPrices && RouteKey(to, from) !in VajraPrices ==>
              StateFare(Vajra, from, to, dh) == Single(Linear(0, 120, dh))
  {
  }

  /** A name with no upper-case letter is its own lower-case form. */
  lemma {:induction false} LowerOfLowerCase(s: string)
    requires forall i :: 0 <= i < |s| ==> !('A' <= s[i] <= 'Z')
    ensures Lower(s) == s
  {
    if s != [] {
      LowerOfLowerCase(s[1..]);
    }
  }

  /** Lower-case names give their own route key. */
  lemma RouteKeyOfLowerCase(from: string, to: string)
    requires forall i :: 0 <= i < |from| ==> !('A' <= from[i] <= 'Z')
    requires forall i :: 0 <= i < |to| ==> !('A' <= to[i] <= 'Z')
    ensures RouteKey(from, to) == Key(from, to)
  {
    LowerOfLowerCase(from);
    LowerOfLowerCase(to);
  }

  lemma BangaloreKeys()
    ensures RouteKey("hyderabad", "bangalore") == Key("hyderabad", "bangalore")
    ensures RouteKey("bangalore", "hyderabad") == Key("bangalore", "hyderabad")
    ensures Key("hyderabad", "bangalore") != Key("bangalore", "hyderabad")
  {
    RouteKeyOfLowerCase("hyderabad", "bangalore");
    RouteKeyOfLowerCase("bangalore", "hyderabad");
    assert "hyderabad"[0] != "bangalore"[0];
    if Key("hyderabad", "bangalore") == Key("bangalore", "hyderabad") {
      SplitKey("hyderabad", "bangalore", "bangalore", "hyderabad");
    }
  }

  /** Direction matters when both directions are listed: Hyderabad to Bangalore
      is ₹631 by Garuda but Bangalore to Hyderabad is ₹674. */
  lemma GarudaBangaloreRoutes(dh: nat)
    ensures StateFare(Garuda, "hyderabad", "bangalore", dh) == Single(631)
    ensures StateFare(Garuda, "bangalore", "hyderabad", dh) == Single(674)
  {
    BangaloreKeys();
    GarudaBangalorePrices();
    GarudaPricing("hyderabad", "bangalore", dh);
    GarudaPricing("bangalore", "hyderabad", dh);
  }

  lemma GarudaBangalorePrices()
    ensures Key("hyderabad", "bangalore") in GarudaPrices && GarudaPrices[Key("hyderabad", "bangalore")] == 631
    ensures Key("bangalore", "hyderabad") in GarudaPrices && GarudaPrices[Key("bangalore", "hyderabad")] == 674
  {
    var h, b := "hyderabad", "bangalore";
    assert h[0] != b[0];
    KeysDiffer(h, b, b, h);
    KeysDiffer(h, b, h, "kurnool");
    KeysDiffer(h, b, h, "ananthapur");
    KeysDiffer(b, h, h, "kurnool");
    KeysDiffer(b, h, h, "ananthapur");
  }

  /** Vajra lists Hyderabad to Bangalore only, so the reversed key prices the
      way back: ₹674 in both directions. */
  lemma VajraBangaloreRoutes(dh: nat)
    ensures StateFare(Vajra, "hyderabad", "bangalore", dh) == Single(674)
    ensures StateFare(Vajra, "bangalore", "hyderabad", dh) == Single(674)
  {
    BangaloreKeys();
    VajraHydBangalore();
    VajraPricing("hyderabad", "bangalore", dh);
    VajraPricing("bangalore", "hyderabad", dh);
  }

  lemma VajraHydBangalore()
    ensures Key("hyderabad", "bangalore") in VajraPrices && VajraPrices[Key("hyderabad", "bangalore")] == 674
    ensures Key("bangalore", "hyderabad") !in VajraPrices
  {
    var h, b := "hyderabad", "bangalore";
    KeysDiffer(h, b, h, "kurnool");
    assert h[0] != b[0];
    KeysDiffer(b, h, h, b);
  }

  lemma KarimnagarKeys()
    ensures RouteKey("hyderabad", "karimnagar") == Key("hyderabad", "karimnagar")
    ensures RouteKey("karimnagar", "hyderabad") == Key("karimnagar", "hyderabad")
  {
    RouteKeyOfLowerCase("hyderabad", "karimnagar");
    RouteKeyOfLowerCase("karimnagar", "hyderabad");
  }

  /** Garuda between Hyderabad and Karimnagar is ₹231 in either direction. */
  lemma GarudaKarimnagarRoutes(dh: nat)
    ensures StateFare(Garuda, "hyderabad", "karimnagar", dh) == Single(231)
    ensures StateFare(Garuda, "karimnagar", "hyderabad", dh) == Single(231)
  {
    KarimnagarKeys();
    GarudaHydKarimnagar();
    ReverseKarimnagarNotListed();
    GarudaPricing("hyderabad", "karimnagar", dh);
    GarudaPricing("karimnagar", "hyderabad", dh);
  }

  lemma GarudaHydKarimnagar()
    ensures Key("hyderabad", "karimnagar") in GarudaPrices && GarudaPrices[Key("hyderabad", "karimnagar")] == 231
  {
    var h, k := "hyderabad", "karimnagar";
    KeysDiffer(h, k, h, "khammam");
    KeysDiffer(h, k, h, "mancherial");
    KeysDiffer(h, k, "srisailam", h);
    KeysDiffer(h, k, h, "srisailam");
    KeysDiffer(h, k, h, "vijayawada");
    KeysDiffer(h, k, h, "bangalore");
    KeysDiffer(h, k, "bangalore", h);
    KeysDiffer(h, k, h, "kurnool");
    KeysDiffer(h, k, h, "ananthapur");
  }

  lemma ReverseKarimnagarNotListed()
    ensures Key("karimnagar", "hyderabad") !in GarudaPrices
  {
  }

  /** No registered place name contains a hyphen. */
  ghost predicate HyphenFreeNames() {
    forall a :: a in Registry ==> '-' !in a
  }

  /** Every key of a price table joins two registered place names. */
  ghost predicate KeysArePlacePairs(prices: map<string, nat>) {
    forall k :: k in prices ==> exists a, b :: a in Registry && b in Registry && k == Key(a, b)
  }

  lemma RegistryHyphenFree()
    ensures HyphenFreeNames()
  {
  }

  lemma GarudaKeysArePlacePairs()
    ensures KeysArePlacePairs(GarudaPrices)
  {
  }

  lemma VajraKeysArePlacePairs()
    ensures KeysArePlacePairs(VajraPrices)
  {
  }

  /** A key built from hyphen-free names splits back uniquely at its one hyphen. */
  lemma SplitKey(x: string, y: string, a: string, b: string)
    requires '-' !in a && '-' !in b
    requires Key(x, y) == Key(a, b)
    ensures x == a && y == b
  {
    var k := Key(a, b);
    assert x == k[..|x|];
    assert y == k[|x| + 1..];
  }

  /** Distinct pairs of hyphen-free names give distinct route keys. */
  lemma KeysDiffer(a: string, b: string, c: string, d: string)
    requires '-' !in c && '-' !in d
    requires a != c || b != d
    ensures Key(a, b) != Key(c, d)
  {
    if Key(a, b) == Key(c, d) {
      SplitKey(a, b, c, d);
    }
  }

  /** A table price is only ever found between two registered places: an
      unregistered name always lands on the per-km fallback. */
  lemma {:induction false} TableHitNeedsRegisteredPlaces(prices: map<string, nat>, from: string, to: string)
    requires KeysArePlacePairs(prices)
    requires LookupRoute(prices, from, to).Some?
    ensures Lower(from) in Registry && Lower(to) in Registry
  {
    RegistryHyphenFree();
    if RouteKey(from, to) in prices {
      var a, b :| a in Registry && b in Registry && RouteKey(from, to) == Key(a, b);
      SplitKey(Lower(from), Lower(to), a, b);
    } else {
      var a, b :| a in Registry && b in Registry && RouteKey(to, from) == Key(a, b);
      SplitKey(Lower(to), Lower(from), a, b);
    }
  }

  /** Two unknown places by Garuda: both fall back to the hub, the distance is 0
      and so is the per-km fare, "₹0"; no error is raised. */
  lemma UnknownPlacesByGaruda(from: string, to: string, arc: (Coord, Coord) -> real)
    requires IsGreatCircle(arc)
    requires Lower(from) !in Registry && Lower(to) !in Registry
    ensures CalculateFare(State, from, to, Garuda, arc) == Quote("₹0", 0)
  {
    GarudaKeysArePlacePairs();
    if LookupRoute(GarudaPrices, from, to).Some? {
      TableHitNeedsRegisteredPlaces(GarudaPrices, from, to);
    }
    assert NatToString(0) == "0";
  }

  /** The same by Vajra: two unknown places give distance 0 and "₹0". */
  lemma UnknownPlacesByVajra(from: string, to: string, arc: (Coord, Coord) -> real)
    requires IsGreatCircle(arc)
    requires Lower(from) !in Registry && Lower(to) !in Registry
    ensures CalculateFare(State, from, to, Vajra, arc) == Quote("₹0", 0)
  {
    VajraKeysArePlacePairs();
    if LookupRoute(VajraPrices, from, to).Some? {
      TableHitNeedsRegisteredPlaces(VajraPrices, from, to);
    }
    assert NatToString(0) == "0";
  }
}
