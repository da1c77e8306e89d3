/** The fixed region catalogue both scripts iterate: the `state_codes` list
    (the order the crawl visits states in) and `state_names_dict` (the
    canonical name each row is tagged with).  Each literal is written as the
    concatenation of shorter literals holding the same entries in the same
    order, ten codes at a time, so that the verifier can look entries up
    chunk by chunk; the values are the source's. */
module Catalogue {

  const Codes1: seq<string> := ["ak", "al", "ar", "az", "ca", "co", "ct", "dc", "de", "fl"]
  const Codes2: seq<string> := ["ga", "hi", "ia", "id", "il", "in", "ks", "ky", "la", "ma"]
  const Codes3: seq<string> := ["md", "me", "mi", "mn", "mo", "ms", "mt", "nc", "nd", "ne"]
  const Codes4: seq<string> := ["nh", "nj", "nm", "nv", "ny", "oh", "ok", "or", "pa", "ri"]
  const Codes5: seq<string> := ["sc", "sd", "tn", "tx", "ut", "va", "vt", "wa", "wi", "wv"]
  const Codes6: seq<string> := ["wy"]

  const StateCodes: seq<string> := Codes1 + Codes2 + Codes3 + Codes4 + Codes5 + Codes6

  const Names1: map<string, string> := map[
    "ak" := "Alaska",
    "al" := "Alabama",
    "ar" := "Arkansas",
    "az" := "Arizona",
    "ca" := "California",
    "co" := "Colorado",
    "ct" := "Connecticut",
    "dc" := "District of Columbia",
    "de" := "Delaware",
    "fl" := "Florida"]

  const Names2: map<string, string> := map[
    "ga" := "Georgia",
    "hi" := "Hawaii",
    "ia" := "Iowa",
    "id" := "Idaho",
    "il" := "Illinois",
    "in" := "Indiana",
    "ks" := "Kansas",
    "ky" := "Kentucky",
    "la" := "Louisiana",
    "ma" := "Massachusetts"]

  const Names3: map<string, string> := map[
    "md" := "Maryland",
    "me" := "Maine",
    "mi" := "Michigan",
    "mn" := "Minnesota",
    "mo" := "Missouri",
    "ms" := "Mississippi",
    "mt" := "Montana",
    "nc" := "North Carolina",
    "nd" := "North Dakota",
    "ne" := "Nebraska"]

  const Names4: map<string, string> := map[
    "nh" := "New Hampshire",
    "nj" := "New Jersey",
    "nm" := "New Mexico",
    "nv" := "Nevada",
    "ny" := "New York",
    "oh" := "Ohio",
    "ok" := "Oklahoma",
    "or" := "Oregon",
    "pa" := "Pennsylvania",
    "ri" := "Rhode Island"]

  const Names5: map<string, string> := map[
    "sc" := "South Carolina",
    "sd" := "South Dakota",
    "tn" := "Tennessee",
    "tx" := "Texas",
    "ut" := "Utah",
    "va" := "Virginia",
    "vt" := "Vermont",
    "wa" := "Washington",
    "wi" := "Wisconsin",
    "wv" := "West Virginia"]

  const Names6: map<string, string> := map[
    "wy" := "Wyoming"]

  const StateNames: map<string, string> := Names1 + Names2 + Names3 + Names4 + Names5 + Names6

  /** A two-letter code read as a number, so that codes can be compared. */
  function Rank(code: string): int
  {
    if |code| == 2 then code[0] as int * 65536 + code[1] as int else 0
  }

  /** Each element ranks strictly below the next one. */
  predicate Ascending(codes: seq<string>)
  {
    forall i :: 0 <= i < |codes| - 1 ==> Rank(codes[i]) < Rank(codes[i + 1])
  }

  predicate Distinct(codes: seq<string>)
  {
    forall i, j :: 0 <= i < j < |codes| ==> codes[i] != codes[j]
  }

  lemma {:induction false} AscendingRanks(codes: seq<string>, i: nat, j: nat)
    requires Ascending(codes)
    requires i < j < |codes|
    ensures Rank(codes[i]) < Rank(codes[j])
    decreases j - i
  {
    if i + 1 < j {
      AscendingRanks(codes, i + 1, j);
    }
  }

  /** A list whose ranks strictly ascend repeats no element. */
  lemma AscendingIsDistinct(codes: seq<string>)
    requires Ascending(codes)
    ensures Distinct(codes)
  {
    forall i, j | 0 <= i < j < |codes| ensures codes[i] != codes[j] {
      AscendingRanks(codes, i, j);
    }
  }

  /** Two ascending lists joined where the first ends below the second's
      start form an ascending list. */
  lemma AscendingConcat(a: seq<string>, b: seq<string>)
    requires Ascending(a) && Ascending(b)
    requires a != [] && b != [] && Rank(a[|a| - 1]) < Rank(b[0])
    ensures Ascending(a + b)
  {
  }

  lemma ChunksAscending()
    ensures Ascending(Codes1) && Ascending(Codes2) && Ascending(Codes3)
    ensures Ascending(Codes4) && Ascending(Codes5) && Ascending(Codes6)
  {
  }

  /** `state_codes` lists its codes in ascending order. */
  lemma CodesAscending()
    ensures Ascending(StateCodes)
  {
    ChunksAscending();
    AscendingConcat(Codes1, Codes2);
    AscendingConcat(Codes1 + Codes2, Codes3);
    AscendingConcat(Codes1 + Codes2 + Codes3, Codes4);
    AscendingConcat(Codes1 + Codes2 + Codes3 + Codes4, Codes5);
    AscendingConcat(Codes1 + Codes2 + Codes3 + Codes4 + Codes5, Codes6);
  }

  /** No state appears twice in `state_codes`, so a run visits each one once. */
  lemma CodesDistinct()
    ensures Distinct(StateCodes)
  {
    CodesAscending();
    AscendingIsDistinct(StateCodes);
  }

  lemma ChunksNamed()
    ensures forall c :: c in Codes1 ==> c in Names1
    ensures forall c :: c in Codes2 ==> c in Names2
    ensures forall c :: c in Codes3 ==> c in Names3
    ensures forall c :: c in Codes4 ==> c in Names4
    ensures forall c :: c in Codes5 ==> c in Names5
    ensures forall c :: c in Codes6 ==> c in Names6
  {
  }

  /** `state_names_dict[state]` never raises for a state of `state_codes`. */
  lemma EveryCodeNamed()
    ensures forall c :: c in StateCodes ==> c in StateNames
  {
    ChunksNamed();
  }

  lemma IllinoisInNames2()
    ensures "il" in Names2 && Names2["il"] == "Illinois"
  {
  }

  lemma IllinoisNotLater()
    ensures "il" !in Names3 && "il" !in Names4 && "il" !in Names5 && "il" !in Names6
  {
  }

  /** `state_names_dict['il']` is "Illinois". */
  lemma IllinoisNamed()
    ensures "il" in StateNames && StateNames["il"] == "Illinois"
  {
    IllinoisInNames2();
    IllinoisNotLater();
  }
}
