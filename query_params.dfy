/** The search query string as the browser builds it and the API reads it
    back: decimal text of numbers, `join(',')` / `split(',')` of id and month
    lists, `Number` on each piece, and the frontend's `URLSearchParams`
    encoder that appends only truthy values in a fixed order. */
module QueryParams {
  import opened Common

  // ---------------------------------------------------------------------------
  // Decimal text

  predicate IsDigit(c: char) { '0' <= c <= '9' }

  predicate AllDigits(s: string) { forall i | 0 <= i < |s| :: IsDigit(s[i]) }

  function DigitChar(d: nat): (c: char)
    requires d < 10
    ensures IsDigit(c) && c as int - '0' as int == d
  {
    ('0' as int + d) as char
  }

  /** `n.toString()` for a natural number: no sign, no leading zeros. */
  function NatText(n: nat): string
  {
    if n < 10 then [DigitChar(n)] else NatText(n / 10) + [DigitChar(n % 10)]
  }

  /** The text is a non-empty digit string without a leading zero. */
  lemma {:induction false} NatTextDigits(n: nat)
    ensures NatText(n) != [] && AllDigits(NatText(n))
    ensures |NatText(n)| > 1 ==> NatText(n)[0] != '0'
  {
    if n >= 10 {
      NatTextDigits(n / 10);
    }
  }

  /** `i.toString()` for an integer. */
  function IntText(i: int): string
  {
    if i < 0 then "-" + NatText(-i) else NatText(i)
  }

  /** `r.toString()` for a number with at most one decimal digit: `4.5`
      prints "4.5", `4.0` prints "4" and `-0.5` prints "-0.5". */
  function TenthsText(r: real): string
  {
    if r < 0.0 then "-" + UnsignedTenthsText(-r) else UnsignedTenthsText(r)
  }

  function UnsignedTenthsText(r: real): string
    requires r >= 0.0
  {
    var whole := r.Floor;
    var tenth := ((r - whole as real) * 10.0).Floor;
    if r == whole as real || !(0 <= tenth < 10) then NatText(whole)
    else NatText(whole) + "." + [DigitChar(tenth)]
  }

  /** The value of a digit string, most significant digit first. */
  function DigitsValue(s: string): nat
    requires AllDigits(s)
  {
    if s == [] then 0 else DigitsValue(s[..|s| - 1]) * 10 + (s[|s| - 1] as int - '0' as int)
  }

  /** A non-empty all-digit string read as a number; anything else is None. */
  function ParseNat(s: string): (r: Option<nat>)
    ensures r.Some? <==> s != [] && AllDigits(s)
  {
    if s != [] && AllDigits(s) then Some(DigitsValue(s)) else None
  }

  /** `parseInt` / `Number` on an optionally `-`-signed digit string. Other
      text (spaces, a `+`, trailing characters, decimals) is outside the
      model and gives None; JavaScript would give NaN or a prefix parse. */
  function ParseInt(s: string): (r: Option<int>)
    ensures r.Some? <==> (s != [] && AllDigits(s)) || (|s| >= 2 && s[0] == '-' && AllDigits(s[1..]))
  {
    if s != [] && s[0] == '-' then
      var n := ParseNat(s[1..]);
      if n.Some? then Some(0 - n.value) else None
    else
      var n := ParseNat(s);
      if n.Some? then Some(n.value as int) else None
  }

  /** `Number(piece)` on a piece of a split list: the empty piece is 0. */
  function NumberOf(s: string): (r: Option<int>)
    ensures s == [] ==> r == Some(0)
    ensures s != [] ==> r == ParseInt(s)
  {
    if s == [] then Some(0) else ParseInt(s)
  }

  lemma {:induction false} DigitsOfNatText(n: nat)
    ensures AllDigits(NatText(n))
    ensures DigitsValue(NatText(n)) == n
  {
    NatTextDigits(n);
    if n >= 10 {
      var s := NatText(n);
      assert s[..|s| - 1] == NatText(n / 10);
      DigitsOfNatText(n / 10);
    }
  }

  /** Reading back the decimal text of a natural number gives the number. */
  lemma ParseNatText(n: nat)
    ensures ParseNat(NatText(n)) == Some(n)
  {
    DigitsOfNatText(n);
  }

  /** `parseInt(i.toString()) === i` and `Number(i.toString()) === i`. */
  lemma ParseIntText(i: int)
    ensures ParseInt(IntText(i)) == Some(i)
    ensures NumberOf(IntText(i)) == Some(i)
  {
    if i < 0 {
      assert IntText(i)[1..] == NatText(-i);
      ParseNatText(-i);
    } else {
      NatTextDigits(i);
      ParseNatText(i);
    }
  }

  /** `parseFloat` on an optionally signed decimal with at most one digit
      after the point; other text is outside the model (None). */
  function ParseTenths(s: string): (r: Option<real>)
  {
    if s != [] && s[0] == '-' then
      var u := ParseUnsignedTenths(s[1..]);
      if u.Some? then Some(-u.value) else None
    else ParseUnsignedTenths(s)
  }

  function ParseUnsignedTenths(s: string): (r: Option<real>)
    ensures r.Some? ==> r.value >= 0.0
  {
    if s != [] && AllDigits(s) then Some(DigitsValue(s) as real)
    else if |s| >= 3 && s[|s| - 2] == '.' && IsDigit(s[|s| - 1]) && AllDigits(s[..|s| - 2]) then
      Some(DigitsValue(s[..|s| - 2]) as real + (s[|s| - 1] as int - '0' as int) as real / 10.0)
    else None
  }

  /** n / 10 splits into its whole part n div 10 and its tenth n mod 10. */
  lemma TenthsParts(n: nat)
    ensures (n as real / 10.0).Floor == n / 10
    ensures ((n as real / 10.0 - (n / 10) as real) * 10.0).Floor == n % 10
    ensures n as real / 10.0 == (n / 10) as real <==> n % 10 == 0
    ensures n as real / 10.0 == (n / 10) as real + (n % 10) as real / 10.0
  {
    var q := n / 10;
    var d := n % 10;
    assert n == 10 * q + d;
    assert n as real == 10.0 * q as real + d as real;
    assert n as real / 10.0 == q as real + d as real / 10.0;
    assert q as real <= n as real / 10.0 < (q + 1) as real;
    assert (n as real / 10.0 - q as real) * 10.0 == d as real;
  }

  lemma UnsignedTenthsRoundTrip(n: nat)
    ensures ParseUnsignedTenths(UnsignedTenthsText(n as real / 10.0)) == Some(n as real / 10.0)
  {
    var r := n as real / 10.0;
    var q := n / 10;
    var d := n % 10;
    TenthsParts(n);
    DigitsOfNatText(q);
    NatTextDigits(q);
    var s := UnsignedTenthsText(r);
    if d == 0 {
      assert s == NatText(q);
    } else {
      assert s == NatText(q) + "." + [DigitChar(d)];
      assert s[|s| - 2] == '.';
      assert !AllDigits(s);
      assert s[..|s| - 2] == NatText(q);
      assert s[|s| - 1] as int - '0' as int == d;
    }
  }

  lemma UnsignedTenthsLeadingDigit(r: real)
    requires r >= 0.0
    ensures UnsignedTenthsText(r) != [] && IsDigit(UnsignedTenthsText(r)[0])
  {
    NatTextDigits(r.Floor);
  }

  /** A leading `-` negates what the unsigned parse reads. */
  lemma SignedTenths(u: string, v: real)
    requires u != [] && IsDigit(u[0]) && ParseUnsignedTenths(u) == Some(v)
    ensures ParseTenths(u) == Some(v)
    ensures ParseTenths("-" + u) == Some(-v)
  {
    assert ("-" + u)[0] == '-' && ("-" + u)[1..] == u;
  }

  /** `parseFloat(r.toString()) === r` for every non-negative multiple of a
      tenth (the rating steps the filter offers)... */
  lemma TenthsRoundTrip(n: nat)
    ensures ParseTenths(TenthsText(n as real / 10.0)) == Some(n as real / 10.0)
  {
    var r := n as real / 10.0;
    UnsignedTenthsRoundTrip(n);
    UnsignedTenthsLeadingDigit(r);
    SignedTenths(UnsignedTenthsText(r), r);
    assert TenthsText(r) == UnsignedTenthsText(r);
  }

  /** ...and for the negative ones. */
  lemma NegativeTenthsRoundTrip(n: nat)
    requires n > 0
    ensures ParseTenths(TenthsText(-(n as real / 10.0))) == Some(-(n as real / 10.0))
  {
    var r := n as real / 10.0;
    UnsignedTenthsRoundTrip(n);
    UnsignedTenthsLeadingDigit(r);
    SignedTenths(UnsignedTenthsText(r), r);
    assert TenthsText(-r) == "-" + UnsignedTenthsText(r);
  }

  // ---------------------------------------------------------------------------
  // `split(',')` and `join(',')`

  /** `s.split(sep)`: the pieces between separators; always at least one
      piece, so `"".split(',')` is `[""]` and a trailing separator leaves an
      empty last piece. */
  function Split(s: string, sep: char): (r: seq<string>)
    ensures |r| >= 1
  {
    if s == [] then [""]
    else
      var rest := Split(s[1..], sep);
      if s[0] == sep then [""] + rest else [[s[0]] + rest[0]] + rest[1..]
  }

  /** `parts.join(sep)`. */
  function Join(parts: seq<string>, sep: char): string
  {
    if parts == [] then ""
    else if |parts| == 1 then parts[0]
    else parts[0] + [sep] + Join(parts[1..], sep)
  }

  lemma {:induction false} SplitNoSeparator(s: string, sep: char)
    requires sep !in s
    ensures Split(s, sep) == [s]
  {
    if s != [] {
      SplitNoSeparator(s[1..], sep);
      assert [s[0]] + s[1..] == s;
    }
  }

  lemma {:induction false} SplitAfterPiece(w: string, sep: char, t: string)
    requires sep !in w
    ensures Split(w + [sep] + t, sep) == [w] + Split(t, sep)
  {
    if w == [] {
      assert w + [sep] + t == [sep] + t;
      assert ([sep] + t)[1..] == t;
    } else {
      assert (w + [sep] + t)[1..] == w[1..] + [sep] + t;
      SplitAfterPiece(w[1..], sep, t);
      assert [w[0]] + w[1..] == w;
    }
  }

  /** Splitting a join gives back the pieces when no piece holds the separator. */
  lemma {:induction false} SplitJoin(parts: seq<string>, sep: char)
    requires |parts| >= 1
    requires forall i | 0 <= i < |parts| :: sep !in parts[i]
    ensures Split(Join(parts, sep), sep) == parts
  {
    if |parts| == 1 {
      SplitNoSeparator(parts[0], sep);
    } else {
      SplitJoin(parts[1..], sep);
      SplitAfterPiece(parts[0], sep, Join(parts[1..], sep));
    }
  }

  // ---------------------------------------------------------------------------
  // Number lists in a query value

  /** `list.join(',')` with each element printed by `toString`. */
  function EncodeList(xs: seq<int>): string
  {
    Join(IntTexts(xs), ',')
  }

  function IntTexts(xs: seq<int>): seq<string>
  {
    if xs == [] then [] else [IntText(xs[0])] + IntTexts(xs[1..])
  }

  lemma {:induction false} IntTextsIndex(xs: seq<int>)
    ensures |IntTexts(xs)| == |xs|
    ensures forall i | 0 <= i < |xs| :: IntTexts(xs)[i] == IntText(xs[i])
  {
    if xs != [] {
      IntTextsIndex(xs[1..]);
    }
  }

  /** `Number` on every piece; None when some piece is not a plain number
      (JavaScript would put NaN in the list). */
  function NumbersOf(pieces: seq<string>): (r: Option<seq<int>>)
    ensures r.Some? ==> |r.value| == |pieces|
    ensures r.Some? <==> forall i | 0 <= i < |pieces| :: NumberOf(pieces[i]).Some?
  {
    if pieces == [] then Some([])
    else
      var head := NumberOf(pieces[0]);
      var tail := NumbersOf(pieces[1..]);
      if head.Some? && tail.Some? then Some([head.value as int] + tail.value)
      else
        assert head.None? ==> !NumberOf(pieces[0]).Some?;
        None
  }

  /** `value.split(',').map(Number)`. */
  function DecodeList(s: string): Option<seq<int>>
  {
    NumbersOf(Split(s, ','))
  }

  lemma {:induction false} NumbersOfTexts(xs: seq<int>)
    ensures NumbersOf(IntTexts(xs)) == Some(xs)
  {
    if xs != [] {
      var texts := IntTexts(xs);
      assert texts[0] == IntText(xs[0]);
      ParseIntText(xs[0]);
      assert texts[1..] == IntTexts(xs[1..]);
      NumbersOfTexts(xs[1..]);
      assert [xs[0]] + xs[1..] == xs;
    }
  }

  /** The list round trip: for a non-empty list of integers, the API's
      `split(',').map(Number)` of the browser's `join(',')` is the original
      list. */
  lemma DecodeEncodeList(xs: seq<int>)
    requires xs != []
    ensures DecodeList(EncodeList(xs)) == Some(xs)
  {
    var texts := IntTexts(xs);
    IntTextsIndex(xs);
    forall i | 0 <= i < |texts|
      ensures ',' !in texts[i]
    {
      var n := if xs[i] < 0 then -xs[i] else xs[i];
      NatTextDigits(n);
      assert texts[i] == IntText(xs[i]);
      if xs[i] < 0 {
        assert texts[i] == "-" + NatText(n);
      }
    }
    SplitJoin(texts, ',');
    NumbersOfTexts(xs);
  }

  /** The empty list is never sent: `"".split(',').map(Number)` would be `[0]`. */
  lemma EmptyListDecodesToZero()
    ensures DecodeList(EncodeList([])) == Some([0])
  {
    assert EncodeList([]) == "";
    assert Split("", ',') == [""];
    assert NumberOf("") == Some(0);
    assert NumbersOf([""][1..]) == Some([]);
    assert NumbersOf([""]) == Some([0 as int] + []);
    assert [0 as int] + [] == [0];
    assert DecodeList("") == NumbersOf([""]);
  }

  // ---------------------------------------------------------------------------
  // The browser's encoder (`getAccommodations`)

  /** The search filters and paging options the pages hold; `None` is
      `undefined`. */
  datatype ClientFilters = ClientFilters(
    region: Option<string>,
    checkIn: Option<string>,
    checkOut: Option<string>,
    adults: Option<int>,
    children: Option<int>,
    infants: Option<int>,
    ageMonths: Option<seq<int>>,
    amenities: Option<seq<int>>,
    minPrice: Option<int>,
    maxPrice: Option<int>,
    minRating: Option<real>,
    page: Option<int>,
    limit: Option<int>,
    sortBy: Option<string>,
    sortOrder: Option<string>)

  /** JavaScript truthiness of an optional string / number / real. */
  predicate TruthyText(s: Option<string>) { s.Some? && s.value != "" }
  predicate TruthyInt(n: Option<int>) { n.Some? && n.value != 0 }
  predicate TruthyReal(r: Option<real>) { r.Some? && r.value != 0.0 }
  predicate NonEmptyList(xs: Option<seq<int>>) { xs.Some? && |xs.value| > 0 }

  /** The parameter names, in the order the encoder appends them. */
  datatype ParamName =
    | RegionParam | CheckInParam | CheckOutParam | AdultsParam | ChildrenParam | InfantsParam
    | AgeMonthsParam | AmenitiesParam | MinPriceParam | MaxPriceParam | MinRatingParam
    | PageParam | LimitParam | SortByParam | SortOrderParam
  {
    /** The name as it appears in the query string. */
    function Text(): string
    {
      match this
      case RegionParam => "region"
      case CheckInParam => "checkIn"
      case CheckOutParam => "checkOut"
      case AdultsParam => "adults"
      case ChildrenParam => "children"
      case InfantsParam => "infants"
      case AgeMonthsParam => "ageMonths"
      case AmenitiesParam => "amenities"
      case MinPriceParam => "minPrice"
      case MaxPriceParam => "maxPrice"
      case MinRatingParam => "minRating"
      case PageParam => "page"
      case LimitParam => "limit"
      case SortByParam => "sortBy"
      case SortOrderParam => "sortOrder"
    }

    /** Position in the encoder's order. */
    function Rank(): nat
    {
      match this
      case RegionParam => 0
      case CheckInParam => 1
      case CheckOutParam => 2
      case AdultsParam => 3
      case ChildrenParam => 4
      case InfantsParam => 5
      case AgeMonthsParam => 6
      case AmenitiesParam => 7
      case MinPriceParam => 8
      case MaxPriceParam => 9
      case MinRatingParam => 10
      case PageParam => 11
      case LimitParam => 12
      case SortByParam => 13
      case SortOrderParam => 14
    }
  }

  /** The value of the parameter with that name (`req.query[name]`). */
  function Lookup(params: seq<(ParamName, string)>, name: ParamName): (r: Option<string>)
    ensures r.None? <==> forall i | 0 <= i < |params| :: params[i].0 != name
  {
    if params == [] then None
    else if params[0].0 == name then Some(params[0].1)
    else Lookup(params[1..], name)
  }

  /** Parameter names appear in the encoder's order, each at most once. */
  predicate InParamOrder(params: seq<(ParamName, string)>)
  {
    forall i, j | 0 <= i < j < |params| :: params[i].0.Rank() < params[j].0.Rank()
  }

  lemma {:induction false} LookupConcat(a: seq<(ParamName, string)>, b: seq<(ParamName, string)>, name: ParamName)
    ensures Lookup(a + b, name) == if Lookup(a, name).Some? then Lookup(a, name) else Lookup(b, name)
  {
    if a == [] {
      assert a + b == b;
    } else {
      assert (a + b)[0] == a[0];
      assert (a + b)[1..] == a[1..] + b;
      LookupConcat(a[1..], b, name);
    }
  }

  /** One `if (cond) params.append(name, value)` of the encoder. */
  datatype Append = Append(cond: bool, name: ParamName, value: string)

  /** What one append adds to the list. */
  function Param(e: Append): seq<(ParamName, string)>
  {
    if e.cond then [(e.name, e.value)] else []
  }

  /** The k-th conditional append of `getAccommodations` (k = 0 .. 14). */
  function AppendAt(f: ClientFilters, k: nat): (e: Append)
    requires k < 15
    ensures e.name.Rank() == k
  {
    match k
    case 0 => Append(TruthyText(f.region), RegionParam, f.region.GetOr(""))
    case 1 => Append(TruthyText(f.checkIn), CheckInParam, f.checkIn.GetOr(""))
    case 2 => Append(TruthyText(f.checkOut), CheckOutParam, f.checkOut.GetOr(""))
    case 3 => Append(TruthyInt(f.adults), AdultsParam, IntText(f.adults.GetOr(0)))
    case 4 => Append(TruthyInt(f.children), ChildrenParam, IntText(f.children.GetOr(0)))
    case 5 => Append(TruthyInt(f.infants), InfantsParam, IntText(f.infants.GetOr(0)))
    case 6 => Append(NonEmptyList(f.ageMonths), AgeMonthsParam, EncodeList(f.ageMonths.GetOr([])))
    case 7 => Append(NonEmptyList(f.amenities), AmenitiesParam, EncodeList(f.amenities.GetOr([])))
    case 8 => Append(TruthyInt(f.minPrice), MinPriceParam, IntText(f.minPrice.GetOr(0)))
    case 9 => Append(TruthyInt(f.maxPrice), MaxPriceParam, IntText(f.maxPrice.GetOr(0)))
    case 10 => Append(TruthyReal(f.minRating), MinRatingParam, TenthsText(f.minRating.GetOr(0.0)))
    case 11 => Append(TruthyInt(f.page), PageParam, IntText(f.page.GetOr(0)))
    case 12 => Append(TruthyInt(f.limit), LimitParam, IntText(f.limit.GetOr(0)))
    case 13 => Append(TruthyText(f.sortBy), SortByParam, f.sortBy.GetOr(""))
    case _ => Append(TruthyText(f.sortOrder), SortOrderParam, f.sortOrder.GetOr(""))
  }

  /** The parameter list after the first n conditional appends. */
  function AppendedUpTo(f: ClientFilters, n: nat): seq<(ParamName, string)>
    requires n <= 15
  {
    if n == 0 then [] else AppendedUpTo(f, n - 1) + Param(AppendAt(f, n - 1))
  }

  /** The parameter list `getAccommodations` builds. */
  function SearchParams(f: ClientFilters): seq<(ParamName, string)>
  {
    AppendedUpTo(f, 15)
  }

  /** The k-th `if (cond) params.append(name, value)`. */
  method AppendStep(params: seq<(ParamName, string)>, f: ClientFilters, k: nat)
    returns (r: seq<(ParamName, string)>)
    requires k < 15
    ensures r == params + Param(AppendAt(f, k))
  {
    var e := AppendAt(f, k);
    r := params;
    if e.cond {
      r := r + [(e.name, e.value)];
    }
  }

  /** `getAccommodations`: builds `URLSearchParams` by the fifteen conditional
      appends, in order. */
  method EncodeSearchParams(f: ClientFilters) returns (params: seq<(ParamName, string)>)
    ensures params == SearchParams(f)
  {
    params := [];
    params := AppendStep(params, f, 0);
    assert params == AppendedUpTo(f, 1);
    params := AppendStep(params, f, 1);
    assert params == AppendedUpTo(f, 2);
    params := AppendStep(params, f, 2);
    assert params == AppendedUpTo(f, 3);
    params := AppendStep(params, f, 3);
    assert params == AppendedUpTo(f, 4);
    params := AppendStep(params, f, 4);
    assert params == AppendedUpTo(f, 5);
    params := AppendStep(params, f, 5);
    assert params == AppendedUpTo(f, 6);
    params := AppendStep(params, f, 6);
    assert params == AppendedUpTo(f, 7);
    params := AppendStep(params, f, 7);
    assert params == AppendedUpTo(f, 8);
    params := AppendStep(params, f, 8);
    assert params == AppendedUpTo(f, 9);
    params := AppendStep(params, f, 9);
    assert params == AppendedUpTo(f, 10);
    params := AppendStep(params, f, 10);
    assert params == AppendedUpTo(f, 11);
    params := AppendStep(params, f, 11);
    assert params == AppendedUpTo(f, 12);
    params := AppendStep(params, f, 12);
    assert params == AppendedUpTo(f, 13);
    params := AppendStep(params, f, 13);
    assert params == AppendedUpTo(f, 14);
    params := AppendStep(params, f, 14);
    assert params == AppendedUpTo(f, 15);
  }

  /** Names come out in rank order, each below the number of appends made. */
  lemma {:induction false} AppendedInOrder(f: ClientFilters, n: nat)
    requires n <= 15
    ensures InParamOrder(AppendedUpTo(f, n))
    ensures forall j | 0 <= j < |AppendedUpTo(f, n)| :: AppendedUpTo(f, n)[j].0.Rank() < n
  {
    if n > 0 {
      AppendedInOrder(f, n - 1);
    }
  }

  /** A name's value is that of its own append, or absent when that append's
      condition fails. */
  lemma {:induction false} AppendedLookup(f: ClientFilters, n: nat, k: nat)
    requires k < n <= 15
    ensures Lookup(AppendedUpTo(f, n), AppendAt(f, k).name)
            == if AppendAt(f, k).cond then Some(AppendAt(f, k).value) else None
  {
    var name := AppendAt(f, k).name;
    LookupConcat(AppendedUpTo(f, n - 1), Param(AppendAt(f, n - 1)), name);
    if k == n - 1 {
      AppendedInOrder(f, n - 1);
    } else {
      AppendedLookup(f, n - 1, k);
    }
  }

  /** The encoder appends names in a fixed order and each at most once. */
  lemma SearchParamsInOrder(f: ClientFilters)
    ensures InParamOrder(SearchParams(f))
  {
    AppendedInOrder(f, 15);
  }

  /** Each filter reaches the query exactly when it is truthy (lists: when
      non-empty), as its decimal or comma-joined text. */
  lemma SearchParamsLookup(f: ClientFilters)
    ensures Lookup(SearchParams(f), RegionParam) == (if TruthyText(f.region) then f.region else None)
    ensures Lookup(SearchParams(f), CheckInParam) == (if TruthyText(f.checkIn) then f.checkIn else None)
    ensures Lookup(SearchParams(f), CheckOutParam) == (if TruthyText(f.checkOut) then f.checkOut else None)
    ensures Lookup(SearchParams(f), AdultsParam) == (if TruthyInt(f.adults) then Some(IntText(f.adults.value)) else None)
    ensures Lookup(SearchParams(f), ChildrenParam) == (if TruthyInt(f.children) then Some(IntText(f.children.value)) else None)
    ensures Lookup(SearchParams(f), InfantsParam) == (if TruthyInt(f.infants) then Some(IntText(f.infants.value)) else None)
    ensures Lookup(SearchParams(f), AgeMonthsParam) == (if NonEmptyList(f.ageMonths) then Some(EncodeList(f.ageMonths.value)) else None)
    ensures Lookup(SearchParams(f), AmenitiesParam) == (if NonEmptyList(f.amenities) then Some(EncodeList(f.amenities.value)) else None)
    ensures Lookup(SearchParams(f), MinPriceParam) == (if TruthyInt(f.minPrice) then Some(IntText(f.minPrice.value)) else None)
    ensures Lookup(SearchParams(f), MaxPriceParam) == (if TruthyInt(f.maxPrice) then Some(IntText(f.maxPrice.value)) else None)
    ensures Lookup(SearchParams(f), MinRatingParam) == (if TruthyReal(f.minRating) then Some(TenthsText(f.minRating.value)) else None)
    ensures Lookup(SearchParams(f), PageParam) == (if TruthyInt(f.page) then Some(IntText(f.page.value)) else None)
    ensures Lookup(SearchParams(f), LimitParam) == (if TruthyInt(f.limit) then Some(IntText(f.limit.value)) else None)
    ensures Lookup(SearchParams(f), SortByParam) == (if TruthyText(f.sortBy) then f.sortBy else None)
    ensures Lookup(SearchParams(f), SortOrderParam) == (if TruthyText(f.sortOrder) then f.sortOrder else None)
  {
    AppendedLookup(f, 15, 0);
    AppendedLookup(f, 15, 1);
    AppendedLookup(f, 15, 2);
    AppendedLookup(f, 15, 3);
    AppendedLookup(f, 15, 4);
    AppendedLookup(f, 15, 5);
    AppendedLookup(f, 15, 6);
    AppendedLookup(f, 15, 7);
    AppendedLookup(f, 15, 8);
    AppendedLookup(f, 15, 9);
    AppendedLookup(f, 15, 10);
    AppendedLookup(f, 15, 11);
    AppendedLookup(f, 15, 12);
    AppendedLookup(f, 15, 13);
    AppendedLookup(f, 15, 14);
  }

  /** `getAccommodationAmenities`: `?ageMonth=m` only when the month is
      truthy, so month 0 sends no filter at all. */
  function AmenitiesQuery(ageMonth: Option<int>): (q: string)
    ensures q == "" <==> !TruthyInt(ageMonth)
  {
    if TruthyInt(ageMonth) then "?ageMonth=" + IntText(ageMonth.value) else ""
  }

  // ---------------------------------------------------------------------------
  // Reading a numeric query value on the server

  /** `q ? parseInt(q) : undefined` (also `parseFloat` of a whole number).
      The outer None is text the model does not parse (NaN). */
  function OptionalInt(v: Option<string>): (r: Option<Option<int>>)
    ensures !TruthyText(v) ==> r == Some(None)
    ensures TruthyText(v) ==> (r.Some? <==> ParseInt(v.value).Some?)
    ensures r.Some? && r.value.Some? ==> TruthyText(v) && ParseInt(v.value) == r.value
  {
    if !TruthyText(v) then Some(None)
    else
      var n := ParseInt(v.value);
      if n.Some? then Some(Some(n.value)) else None
  }

  /** `q ? parseInt(q) : d`. */
  function DefaultedInt(v: Option<string>, d: int): (r: Option<int>)
    ensures !TruthyText(v) ==> r == Some(d)
    ensures TruthyText(v) ==> r == ParseInt(v.value)
  {
    if !TruthyText(v) then Some(d) else ParseInt(v.value)
  }
}
