/** The time zones offered when scheduling a report, and the label lookup over them. */
module TimezoneCatalog {
  import opened Wrappers

  /** A zone's IANA name, its display caption and a textual UTC offset. */
  datatype TimezoneOption = TimezoneOption(value: string, caption: string, offset: string)

  /** `COMMON_TIMEZONES`, region by region in the order they are offered. */
  function CommonTimezones(): seq<TimezoneOption>
  {
    NorthAmericaZones() + EuropeZones() + AsiaZones() + AustraliaPacificZones() + SouthAmericaZones() + AfricaZones() + UniversalZones()
  }

  /** North America (timezoneHelper.ts:19-24). */
  function NorthAmericaZones(): (r: seq<TimezoneOption>)
    ensures Regional(r)
  {
    [TimezoneOption("America/New_York", "Eastern Time (ET)", "UTC-5/-4"),
     TimezoneOption("America/Chicago", "Central Time (CT)", "UTC-6/-5"),
     TimezoneOption("America/Denver", "Mountain Time (MT)", "UTC-7/-6"),
     TimezoneOption("America/Los_Angeles", "Pacific Time (PT)", "UTC-8/-7"),
     TimezoneOption("America/Anchorage", "Alaska Time (AKT)", "UTC-9/-8"),
     TimezoneOption("Pacific/Honolulu", "Hawaii Time (HT)", "UTC-10")]
  }

  /** Europe (timezoneHelper.ts:27-33). */
  function EuropeZones(): (r: seq<TimezoneOption>)
    ensures Regional(r)
  {
    [TimezoneOption("Europe/London", "London (GMT/BST)", "UTC+0/+1"),
     TimezoneOption("Europe/Paris", "Paris (CET/CEST)", "UTC+1/+2"),
     TimezoneOption("Europe/Berlin", "Berlin (CET/CEST)", "UTC+1/+2"),
     TimezoneOption("Europe/Rome", "Rome (CET/CEST)", "UTC+1/+2"),
     TimezoneOption("Europe/Madrid", "Madrid (CET/CEST)", "UTC+1/+2"),
     TimezoneOption("Europe/Athens", "Athens (EET/EEST)", "UTC+2/+3"),
     TimezoneOption("Europe/Moscow", "Moscow (MSK)", "UTC+3")]
  }

  /** Asia (timezoneHelper.ts:36-42). */
  function AsiaZones(): (r: seq<TimezoneOption>)
    ensures Regional(r)
  {
    [TimezoneOption("Asia/Dubai", "Dubai (GST)", "UTC+4"),
     TimezoneOption("Asia/Kolkata", "India (IST)", "UTC+5:30"),
     TimezoneOption("Asia/Shanghai", "China (CST)", "UTC+8"),
     TimezoneOption("Asia/Hong_Kong", "Hong Kong (HKT)", "UTC+8"),
     TimezoneOption("Asia/Singapore", "Singapore (SGT)", "UTC+8"),
     TimezoneOption("Asia/Tokyo", "Tokyo (JST)", "UTC+9"),
     TimezoneOption("Asia/Seoul", "Seoul (KST)", "UTC+9")]
  }

  /** Australia & Pacific (timezoneHelper.ts:45-49). */
  function AustraliaPacificZones(): (r: seq<TimezoneOption>)
    ensures Regional(r)
  {
    [TimezoneOption("Australia/Sydney", "Sydney (AEDT/AEST)", "UTC+10/+11"),
     TimezoneOption("Australia/Melbourne", "Melbourne (AEDT/AEST)", "UTC+10/+11"),
     TimezoneOption("Australia/Brisbane", "Brisbane (AEST)", "UTC+10"),
     TimezoneOption("Australia/Perth", "Perth (AWST)", "UTC+8"),
     TimezoneOption("Pacific/Auckland", "Auckland (NZDT/NZST)", "UTC+12/+13")]
  }

  /** South America (timezoneHelper.ts:52-54). */
  function SouthAmericaZones(): (r: seq<TimezoneOption>)
    ensures Regional(r)
  {
    [TimezoneOption("America/Sao_Paulo", "S\U{0000E3}o Paulo (BRT)", "UTC-3"),
     TimezoneOption("America/Buenos_Aires", "Buenos Aires (ART)", "UTC-3"),
     TimezoneOption("America/Santiago", "Santiago (CLT)", "UTC-3/-4")]
  }

  /** Africa (timezoneHelper.ts:57-59). */
  function AfricaZones(): (r: seq<TimezoneOption>)
    ensures Regional(r)
  {
    [TimezoneOption("Africa/Cairo", "Cairo (EET)", "UTC+2"),
     TimezoneOption("Africa/Johannesburg", "Johannesburg (SAST)", "UTC+2"),
     TimezoneOption("Africa/Lagos", "Lagos (WAT)", "UTC+1")]
  }

  /** UTC (timezoneHelper.ts:62-62). */
  function UniversalZones(): (r: seq<TimezoneOption>)
    ensures |r| == 1 && r[0].value == "UTC"
  {
    [TimezoneOption("UTC", "UTC (Coordinated Universal Time)", "UTC+0")]
  }

  /** The position of the first zone named `tz`, if any (`Array.prototype.findIndex`). */
  function FindZone(zones: seq<TimezoneOption>, tz: string): (r: Option<nat>)
    ensures r.Some? ==> r.value < |zones| && zones[r.value].value == tz
    ensures r.Some? ==> forall j :: 0 <= j < r.value ==> zones[j].value != tz
    ensures r.None? <==> forall j :: 0 <= j < |zones| ==> zones[j].value != tz
  {
    if zones == [] then None
    else if zones[0].value == tz then Some(0)
    else match FindZone(zones[1..], tz)
      case None => None
      case Some(i) => Some(i + 1)
  }

  /** `getTimezoneLabel`: the caption of the first zone named `tz`, or `tz` itself when none is. */
  function GetTimezoneLabel(tz: string): (r: string)
    ensures (forall j :: 0 <= j < |CommonTimezones()| ==> CommonTimezones()[j].value != tz) ==> r == tz
    ensures (exists j :: 0 <= j < |CommonTimezones()| && CommonTimezones()[j].value == tz) ==>
      exists j :: 0 <= j < |CommonTimezones()| && CommonTimezones()[j].value == tz && r == CommonTimezones()[j].caption
  {
    var zones := CommonTimezones();
    match FindZone(zones, tz)
    case None => tz
    case Some(i) => zones[i].caption
  }

  /** No zone of the list is named by three characters or fewer. */
  predicate Regional(zones: seq<TimezoneOption>)
  {
    forall j :: 0 <= j < |zones| ==> |zones[j].value| > 3
  }

  /** A short name is never found among the regional zones; the search goes on past them. */
  lemma {:induction false} FindZoneSkipsRegional(a: seq<TimezoneOption>, b: seq<TimezoneOption>, tz: string)
    requires Regional(a) && |tz| <= 3
    ensures FindZone(a + b, tz) == match FindZone(b, tz) case None => None case Some(i) => Some(|a| + i)
  {
    if a != [] {
      assert (a + b)[1..] == a[1..] + b;
      FindZoneSkipsRegional(a[1..], b, tz);
    } else {
      assert a + b == b;
    }
  }

  lemma RegionalConcat(a: seq<TimezoneOption>, b: seq<TimezoneOption>)
    requires Regional(a) && Regional(b)
    ensures Regional(a + b)
  {
  }

  /** "UTC" is offered, under its long caption. */
  lemma UtcLabel()
    ensures GetTimezoneLabel("UTC") == "UTC (Coordinated Universal Time)"
  {
    RegionalConcat(NorthAmericaZones(), EuropeZones());
    RegionalConcat(NorthAmericaZones() + EuropeZones(), AsiaZones());
    RegionalConcat(NorthAmericaZones() + EuropeZones() + AsiaZones(), AustraliaPacificZones());
    RegionalConcat(NorthAmericaZones() + EuropeZones() + AsiaZones() + AustraliaPacificZones(), SouthAmericaZones());
    RegionalConcat(NorthAmericaZones() + EuropeZones() + AsiaZones() + AustraliaPacificZones() + SouthAmericaZones(), AfricaZones());
    FindZoneSkipsRegional(NorthAmericaZones() + EuropeZones() + AsiaZones() + AustraliaPacificZones() + SouthAmericaZones() + AfricaZones(), UniversalZones(), "UTC");
  }

  /** A name of three characters or fewer other than "UTC" is not offered and labels itself. */
  lemma ShortUnknownNameLabelsItself(tz: string)
    requires |tz| <= 3 && tz != "UTC"
    ensures GetTimezoneLabel(tz) == tz
  {
    RegionalConcat(NorthAmericaZones(), EuropeZones());
    RegionalConcat(NorthAmericaZones() + EuropeZones(), AsiaZones());
    RegionalConcat(NorthAmericaZones() + EuropeZones() + AsiaZones(), AustraliaPacificZones());
    RegionalConcat(NorthAmericaZones() + EuropeZones() + AsiaZones() + AustraliaPacificZones(), SouthAmericaZones());
    RegionalConcat(NorthAmericaZones() + EuropeZones() + AsiaZones() + AustraliaPacificZones() + SouthAmericaZones(), AfricaZones());
    FindZoneSkipsRegional(NorthAmericaZones() + EuropeZones() + AsiaZones() + AustraliaPacificZones() + SouthAmericaZones() + AfricaZones(), UniversalZones(), tz);
  }
}
