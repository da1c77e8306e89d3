/** The flattening both scripts' `main` performs: every city bucket returned
    for a county becomes one row, rows of a state follow county order and
    then city order, and `whole_df` appends states in the order they were
    visited.  The pandas frames are modelled as sequences of rows. */
module Rows {
  import opened Api
  import opened Catalogue

  /** A row of a state's frame `df` before its `state` column is filled:
      `pd.DataFrame(city_data)` with `df_data['county'] = county`. */
  datatype CityRow = CityRow(county: string, city: string, count: int)

  /** A row of the output table (`state`, `county`, `city`, `count`). */
  datatype Row = Row(state: string, county: string, city: string, count: int)

  /** One drilled-into county and the city buckets its query returned. */
  datatype CountyResult = CountyResult(county: string, cities: seq<Bucket>)

  /** What one iteration of `main`'s state loop produced: nothing, when the
      state's record count was not positive, or the state's canonical name
      and its counties in bucket order. */
  datatype StateResult =
    | Skipped(code: string)
    | Crawled(code: string, name: string, counties: seq<CountyResult>)

  /** The frame one county contributes. */
  function CountyFrame(c: CountyResult): (t: seq<CityRow>)
    ensures |t| == |c.cities|
    ensures forall j :: 0 <= j < |t| ==> t[j] == CityRow(c.county, c.cities[j].value, c.cities[j].count)
  {
    seq(|c.cities|, j requires 0 <= j < |c.cities| => CityRow(c.county, c.cities[j].value, c.cities[j].count))
  }

  /** `df = pd.concat([df, df_data])` over the counties, in order: one row
      per city bucket of the counties. */
  function StateFrame(cs: seq<CountyResult>): (t: seq<CityRow>)
    ensures |t| == CityCount(cs)
  {
    if cs == [] then [] else CountyFrame(cs[0]) + StateFrame(cs[1..])
  }

  /** `df['state'] = name`: every row of the frame gets the same state. */
  function TagState(name: string, t: seq<CityRow>): (rs: seq<Row>)
    ensures |rs| == |t|
    ensures forall i :: 0 <= i < |t| ==> rs[i] == Row(name, t[i].county, t[i].city, t[i].count)
  {
    seq(|t|, i requires 0 <= i < |t| => Row(name, t[i].county, t[i].city, t[i].count))
  }

  /** The rows one state adds to `whole_df`. */
  function StateRows(s: StateResult): (rs: seq<Row>)
    ensures s.Skipped? ==> rs == []
    ensures forall r :: r in rs ==> s.Crawled? && r.state == s.name
  {
    match s
    case Skipped(_) => []
    case Crawled(_, name, cs) => TagState(name, StateFrame(cs))
  }

  /** `whole_df = pd.concat([whole_df, df])` over the states, in order; a
      run in which every state was skipped leaves it empty. */
  function AllRows(ss: seq<StateResult>): (rs: seq<Row>)
    ensures (forall k :: 0 <= k < |ss| ==> ss[k].Skipped?) ==> rs == []
  {
    if ss == [] then []
    else
      assert forall k :: 0 <= k < |ss| - 1 ==> ss[1..][k] == ss[k + 1];
      StateRows(ss[0]) + AllRows(ss[1..])
  }

  /** The counties drilled into, in order. */
  function CountyNames(cs: seq<CountyResult>): (names: seq<string>)
    ensures |names| == |cs|
    ensures forall i :: 0 <= i < |cs| ==> names[i] == cs[i].county
  {
    seq(|cs|, i requires 0 <= i < |cs| => cs[i].county)
  }

  /** The states visited, in order. */
  function Codes(ss: seq<StateResult>): (codes: seq<string>)
    ensures |codes| == |ss|
    ensures forall i :: 0 <= i < |ss| ==> codes[i] == ss[i].code
  {
    seq(|ss|, i requires 0 <= i < |ss| => ss[i].code)
  }

  lemma CountyNamesSnoc(cs: seq<CountyResult>, c: CountyResult)
    ensures CountyNames(cs + [c]) == CountyNames(cs) + [c.county]
  {
  }

  lemma CodesSnoc(ss: seq<StateResult>, s: StateResult)
    ensures Codes(ss + [s]) == Codes(ss) + [s.code]
  {
  }

  /** A crawled state is tagged with the name `names` gives its code. */
  predicate NamedBy(s: StateResult, names: map<string, string>)
  {
    s.Crawled? ==> s.code in names && s.name == names[s.code]
  }

  /** A crawled state carries the canonical name `state_names_dict` gives
      its code. */
  predicate CanonicallyNamed(s: StateResult)
  {
    NamedBy(s, StateNames)
  }

  /** The number of city buckets over all counties. */
  function CityCount(cs: seq<CountyResult>): nat
  {
    if cs == [] then 0 else |cs[0].cities| + CityCount(cs[1..])
  }

  /** The frame of two runs of counties is the frame of the first followed by
      that of the second: rows keep county order and are never re-sorted. */
  lemma {:induction false} StateFrameConcat(a: seq<CountyResult>, b: seq<CountyResult>)
    ensures StateFrame(a + b) == StateFrame(a) + StateFrame(b)
  {
    if a != [] {
      assert (a + b)[1..] == a[1..] + b;
      StateFrameConcat(a[1..], b);
    } else {
      assert a + b == b;
    }
  }

  lemma {:induction false} CityCountConcat(a: seq<CountyResult>, b: seq<CountyResult>)
    ensures CityCount(a + b) == CityCount(a) + CityCount(b)
  {
    if a != [] {
      assert (a + b)[1..] == a[1..] + b;
      CityCountConcat(a[1..], b);
    } else {
      assert a + b == b;
    }
  }

  /** Row `CityCount(cs[..i]) + j` of the frame is city `j` of county `i`:
      county order first, then city order within the county. */
  lemma StateFramePosition(cs: seq<CountyResult>, i: nat, j: nat)
    requires i < |cs| && j < |cs[i].cities|
    ensures CityCount(cs[..i]) + j < |StateFrame(cs)|
    ensures StateFrame(cs)[CityCount(cs[..i]) + j]
         == CityRow(cs[i].county, cs[i].cities[j].value, cs[i].cities[j].count)
  {
    assert cs == cs[..i] + ([cs[i]] + cs[i + 1..]);
    StateFrameConcat(cs[..i], [cs[i]] + cs[i + 1..]);
    StateFrameConcat([cs[i]], cs[i + 1..]);
    assert StateFrame([cs[i]]) == CountyFrame(cs[i]) by {
      assert [cs[i]][1..] == [];
    }
  }

  /** A row is in a state's frame exactly when it is some city bucket of
      some county of that state, labelled with that county. */
  lemma {:induction false} StateFrameMember(cs: seq<CountyResult>, r: CityRow)
    ensures r in StateFrame(cs) <==>
      exists i, j :: 0 <= i < |cs| && 0 <= j < |cs[i].cities|
                  && r == CityRow(cs[i].county, cs[i].cities[j].value, cs[i].cities[j].count)
  {
    if cs != [] {
      StateFrameMember(cs[1..], r);
      if r in StateFrame(cs) {
        if r in CountyFrame(cs[0]) {
          var j :| 0 <= j < |cs[0].cities| && CountyFrame(cs[0])[j] == r;
          assert 0 <= 0 < |cs| && 0 <= j < |cs[0].cities|;
        } else {
          var i, j :| 0 <= i < |cs[1..]| && 0 <= j < |cs[1..][i].cities|
                   && r == CityRow(cs[1..][i].county, cs[1..][i].cities[j].value, cs[1..][i].cities[j].count);
          assert cs[i + 1] == cs[1..][i];
        }
      }
      if exists i, j :: 0 <= i < |cs| && 0 <= j < |cs[i].cities|
                     && r == CityRow(cs[i].county, cs[i].cities[j].value, cs[i].cities[j].count) {
        var i, j :| 0 <= i < |cs| && 0 <= j < |cs[i].cities|
                 && r == CityRow(cs[i].county, cs[i].cities[j].value, cs[i].cities[j].count);
        if i == 0 {
          assert CountyFrame(cs[0])[j] == r;
        } else {
          assert cs[1..][i - 1] == cs[i];
        }
      }
    }
  }

  /** Row `CityCount(cs[..i]) + j` of a crawled state is city `j` of county
      `i`, tagged with the state's name and that county. */
  lemma StateRowsAt(code: string, name: string, cs: seq<CountyResult>, i: nat, j: nat)
    requires i < |cs| && j < |cs[i].cities|
    ensures CityCount(cs[..i]) + j < |StateRows(Crawled(code, name, cs))|
    ensures StateRows(Crawled(code, name, cs))[CityCount(cs[..i]) + j]
         == Row(name, cs[i].county, cs[i].cities[j].value, cs[i].cities[j].count)
  {
    StateFramePosition(cs, i, j);
  }

  lemma {:induction false} AllRowsConcat(a: seq<StateResult>, b: seq<StateResult>)
    ensures AllRows(a + b) == AllRows(a) + AllRows(b)
  {
    if a != [] {
      assert (a + b)[1..] == a[1..] + b;
      AllRowsConcat(a[1..], b);
    } else {
      assert a + b == b;
    }
  }

  /** Every output row comes from one crawled state and carries that state's
      name. */
  lemma {:induction false} AllRowsMember(ss: seq<StateResult>, r: Row)
    requires r in AllRows(ss)
    ensures exists k :: 0 <= k < |ss| && ss[k].Crawled? && r.state == ss[k].name && r in StateRows(ss[k])
  {
    if r in StateRows(ss[0]) {
      assert 0 <= 0 < |ss|;
    } else {
      AllRowsMember(ss[1..], r);
      var k :| 0 <= k < |ss[1..]| && ss[1..][k].Crawled? && r.state == ss[1..][k].name && r in StateRows(ss[1..][k]);
      assert ss[k + 1] == ss[1..][k];
    }
  }

  /** When every state result is tagged with the name a lookup table gives
      its code, every output row carries the name of one of the visited
      codes. */
  lemma RowsNamedBy(ss: seq<StateResult>, names: map<string, string>)
    requires forall k :: 0 <= k < |ss| ==> NamedBy(ss[k], names)
    ensures forall row :: row in AllRows(ss) ==>
      exists code :: code in Codes(ss) && code in names && row.state == names[code]
  {
    forall row | row in AllRows(ss)
      ensures exists code :: code in Codes(ss) && code in names && row.state == names[code]
    {
      AllRowsMember(ss, row);
      var k :| 0 <= k < |ss| && ss[k].Crawled? && row.state == ss[k].name && row in StateRows(ss[k]);
      assert NamedBy(ss[k], names);
      assert Codes(ss)[k] == ss[k].code;
    }
  }

  /** A state with one county holding one city bucket contributes exactly one
      row. */
  lemma SingleCityRows(code: string, name: string, c: CountyResult)
    requires |c.cities| == 1
    ensures StateRows(Crawled(code, name, [c]))
         == [Row(name, c.county, c.cities[0].value, c.cities[0].count)]
  {
    assert StateFrame([c]) == CountyFrame(c) by {
      assert [c][1..] == [];
    }
  }

  /** Appending one county appends its frame. */
  lemma StateFrameSnoc(cs: seq<CountyResult>, c: CountyResult)
    ensures StateFrame(cs + [c]) == StateFrame(cs) + CountyFrame(c)
  {
    StateFrameConcat(cs, [c]);
    assert StateFrame([c]) == CountyFrame(c) by {
      assert [c][1..] == [];
    }
  }

  /** Appending one state appends its rows. */
  lemma AllRowsSnoc(ss: seq<StateResult>, s: StateResult)
    ensures AllRows(ss + [s]) == AllRows(ss) + StateRows(s)
  {
    AllRowsConcat(ss, [s]);
    assert AllRows([s]) == StateRows(s) by {
      assert [s][1..] == [];
    }
  }
}
