/**
  The camera fleet: one row per unit with its IP address, its name and the
  filter it carries, the filter groups the router selects by, and the
  unit-to-address rule of the status query.
 */
module Fleet {
  import opened Base

  /** One row of the fleet table (columns IP, Name, Filter). */
  datatype Unit = Unit(ip: string, name: string, filter: string)

  // ------------------------------------------------------ filter groups

  predicate IsHalpha(f: string) { f == "ha6647" }
  predicate IsOiii(f: string) { f == "oiii5071" }
  predicate IsHalphaOff(f: string) { f == "ha_left" || f == "ha_right" }
  predicate IsOiiiOff(f: string) { f == "oiii_left" || f == "oiii_right" }
  predicate IsOH(f: string) { f == "OH" }
  predicate IsOHOff(f: string) { f == "OH_off" }

  /** The on-band science filters. */
  predicate IsScience(f: string) { IsHalpha(f) || IsOiii(f) }

  /** The off-band units of the two science lines. */
  predicate IsScienceOff(f: string) { IsHalphaOff(f) || IsOiiiOff(f) }

  /** The sky-line monitor and its off-band partner. */
  predicate IsOHPair(f: string) { IsOH(f) || IsOHOff(f) }

  /** Units with a flip flat attached. */
  predicate IsFlatHaving(f: string) { IsHalpha(f) || IsOH(f) || IsOHOff(f) || IsOiii(f) }

  /** The science units all carry flip flats. */
  lemma ScienceHasFlats(f: string)
    ensures IsScience(f) ==> IsFlatHaving(f)
    ensures IsFlatHaving(f) <==> IsScience(f) || IsOHPair(f)
  {
  }

  /** The override groups are pairwise disjoint, so a unit is touched by at
      most one of the ha, oiii, ha-off, oiii-off, OH and OH-off overrides. */
  lemma OverrideGroupsDisjoint(f: string)
    ensures !(IsHalpha(f) && IsOiii(f)) && !(IsHalpha(f) && IsHalphaOff(f))
    ensures !(IsHalpha(f) && IsOiiiOff(f)) && !(IsHalpha(f) && IsOHPair(f))
    ensures !(IsOiii(f) && IsHalphaOff(f)) && !(IsOiii(f) && IsOiiiOff(f)) && !(IsOiii(f) && IsOHPair(f))
    ensures !(IsHalphaOff(f) && IsOiiiOff(f)) && !(IsHalphaOff(f) && IsOHPair(f))
    ensures !(IsOiiiOff(f) && IsOHPair(f)) && !(IsOH(f) && IsOHOff(f))
  {
  }

  /** Names of the units of a table, in table order. */
  function Names(fleet: seq<Unit>): (ns: seq<string>)
    ensures |ns| == |fleet|
    ensures forall i :: 0 <= i < |fleet| ==> ns[i] == fleet[i].name
  {
    seq(|fleet|, i requires 0 <= i < |fleet| => fleet[i].name)
  }

  /** Names of the units whose filter satisfies `p`, in table order. */
  function NamesWhere(fleet: seq<Unit>, p: string -> bool): (ns: seq<string>)
    ensures forall n :: n in ns <==> exists i :: 0 <= i < |fleet| && fleet[i].name == n && p(fleet[i].filter)
    ensures |ns| <= |fleet|
  {
    if fleet == [] then []
    else
      var rest := NamesWhere(fleet[1..], p);
      assert forall i :: 1 <= i < |fleet| ==> fleet[1..][i - 1] == fleet[i];
      if p(fleet[0].filter) then [fleet[0].name] + rest else rest
  }

  /** Listing the units of two tables one after the other lists the
      matching names of the first, then those of the second: the names
      keep table order. */
  lemma {:induction false} NamesWhereConcat(a: seq<Unit>, b: seq<Unit>, p: string -> bool)
    ensures NamesWhere(a + b, p) == NamesWhere(a, p) + NamesWhere(b, p)
  {
    if a == [] {
      assert a + b == b;
    } else {
      assert (a + b)[1..] == a[1..] + b;
      NamesWhereConcat(a[1..], b, p);
    }
  }

  /** A one-unit table lists its name iff its filter matches. */
  lemma NamesWhereOne(u: Unit, p: string -> bool)
    ensures NamesWhere([u], p) == if p(u.filter) then [u.name] else []
  {
  }

  /** The fleet of the repository's test configuration. */
  const TestFleet: seq<Unit> := [
    Unit("192.168.50.11", "Dragonfly301", "ha6647"),
    Unit("192.168.50.12", "Dragonfly302", "ha6647"),
    Unit("192.168.50.13", "Dragonfly303", "ha6647"),
    Unit("192.168.50.14", "Dragonfly304", "ha_left"),
    Unit("192.168.50.15", "Dragonfly305", "ha_right"),
    Unit("192.168.50.16", "Dragonfly306", "oiii_left"),
    Unit("192.168.50.17", "Dragonfly307", "oiii_right"),
    Unit("192.168.50.18", "Dragonfly308", "OH_off"),
    Unit("192.168.50.19", "Dragonfly309", "OH"),
    Unit("192.168.50.20", "Dragonfly310", "oiii5071")
  ]

  // ------------------------------------------------------- status target

  /** The argument of a status query: a string, an int, or anything else. */
  datatype UnitRef = ByName(text: string) | ByNumber(number: int) | OtherRef

  /** Where a status query goes: an address, or nowhere (an unparsable name
      is reported and the query object is returned without a request). */
  datatype StatusTarget = SendTo(ip: string) | NoRequest

  const Prefix: string := "DRAGONFLY"

  /** Unit number 3xx lives at 192.168.50.(3xx - 290): the address is on
      the 192.168.50 subnet and its last field reads back as n - 290. */
  function UnitIp(n: int): (ip: string)
    ensures |ip| > 11 && ip[..11] == "192.168.50."
    ensures ParseInt(ip[11..]) == Some(n - 290)
  {
    var ip := "192.168.50." + IntToString(n - 290);
    assert ip[11..] == IntToString(n - 290);
    ParseIntOfIntToString(n - 290);
    ip
  }

  /** Distinct unit numbers have distinct addresses. */
  lemma UnitIpInjective(m: int, n: int)
    requires UnitIp(m) == UnitIp(n)
    ensures m == n
  {
  }

  /** The status query's unit-to-address rule: a name is upper-cased and the
      text after "DRAGONFLY" (up to a second occurrence) is read as the
      unit number; an int is the unit number; any other argument leaves the
      number unbound. A string never raises: an unreadable one only means
      no request is sent. */
  function StatusIp(u: UnitRef): (r: Result<StatusTarget>)
    ensures u.OtherRef? <==> r == Err(UnboundLocalError)
    ensures u.ByNumber? ==> r == Ok(SendTo(UnitIp(u.number)))
    ensures u.ByName? && SecondField(ToUpper(u.text), Prefix).None? ==> r == Ok(NoRequest)
  {
    match u
    case OtherRef => Err(UnboundLocalError)
    case ByNumber(n) => Ok(SendTo(UnitIp(n)))
    case ByName(s) =>
      match SecondField(ToUpper(s), Prefix)
      case None => Ok(NoRequest)
      case Some(digits) =>
        match ParseInt(digits)
        case None => Ok(NoRequest)
        case Some(n) => Ok(SendTo(UnitIp(n)))
  }

  lemma ToUpperAppend(a: string, b: string)
    ensures ToUpper(a + b) == ToUpper(a) + ToUpper(b)
  {
    assert forall i :: 0 <= i < |a + b| ==> ToUpper(a + b)[i] == (ToUpper(a) + ToUpper(b))[i] by {
      forall i | 0 <= i < |a + b|
        ensures ToUpper(a + b)[i] == (ToUpper(a) + ToUpper(b))[i]
      {
        if i < |a| {
          assert (a + b)[i] == a[i];
        } else {
          assert (a + b)[i] == b[i - |a|];
        }
      }
    }
  }

  lemma ToUpperDigits(s: string)
    requires AllDigits(s)
    ensures ToUpper(s) == s
  {
  }

  /** The unit prefix never occurs inside a run of digits. */
  lemma PrefixNotInDigits(s: string)
    requires AllDigits(s)
    ensures IndexOf(s, Prefix) == None
  {
    forall j | 0 <= j && j + |Prefix| <= |s|
      ensures !MatchAt(s, Prefix, j)
    {
      assert s[j..j + |Prefix|][0] == s[j];
    }
  }

  /** A unit prefix in any letter case followed by digits upper-cases to
      "DRAGONFLY" and the same digits. */
  lemma UpperUnitName(name: string, digits: string)
    requires ToUpper(name) == Prefix && AllDigits(digits)
    ensures ToUpper(name + digits) == Prefix + digits
  {
    ToUpperAppend(name, digits);
    ToUpperDigits(digits);
  }

  /** The field after "DRAGONFLY" in "DRAGONFLY<digits>" is the digits. */
  lemma UnitNumberField(digits: string)
    requires AllDigits(digits)
    ensures SecondField(Prefix + digits, Prefix) == Some(digits)
  {
    var s := Prefix + digits;
    assert s[..|Prefix|] == Prefix;
    assert IndexOf(s, Prefix) == Some(0);
    assert s[|Prefix|..] == digits;
    PrefixNotInDigits(digits);
  }

  /** A unit name "Dragonfly<N>" in any letter case, and the int N, reach
      the same address 192.168.50.(N - 290). */
  lemma NameAndNumberAgree(name: string, n: nat)
    requires ToUpper(name) == Prefix
    ensures StatusIp(ByName(name + NatToString(n))) == Ok(SendTo(UnitIp(n)))
    ensures StatusIp(ByNumber(n)) == Ok(SendTo(UnitIp(n)))
  {
    var digits := NatToString(n);
    UpperUnitName(name, digits);
    UnitNumberField(digits);
    ParseDigits(digits);
    DigitsValueOfNatToString(n);
  }

  /** The decimal texts the first test unit's name and address use. */
  lemma FirstUnitTexts()
    ensures NatToString(301) == "301" && IntToString(11) == "11"
  {
    assert DigitChar(0) == '0' && DigitChar(1) == '1' && DigitChar(3) == '3';
    assert NatToString(3) == "3" && NatToString(1) == "1";
    assert NatToString(30) == "3" + "0";
    assert NatToString(301) == "30" + "1";
    assert NatToString(11) == "1" + "1";
  }

  /** The first unit of the test fleet: Dragonfly301 is at 192.168.50.11. */
  lemma FirstTestUnitAddress()
    ensures StatusIp(ByName("Dragonfly301")) == Ok(SendTo(TestFleet[0].ip))
    ensures StatusIp(ByName("dragonfly301")) == Ok(SendTo(TestFleet[0].ip))
  {
    FirstUnitTexts();
    assert "Dragonfly301" == "Dragonfly" + NatToString(301);
    assert "dragonfly301" == "dragonfly" + NatToString(301);
    assert ToUpper("Dragonfly") == Prefix;
    assert ToUpper("dragonfly") == Prefix;
    NameAndNumberAgree("Dragonfly", 301);
    NameAndNumberAgree("dragonfly", 301);
    assert UnitIp(301) == "192.168.50." + "11" == TestFleet[0].ip;
  }
}
