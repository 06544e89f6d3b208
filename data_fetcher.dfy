/**
 * Preparation of the three quarterly statements once they have been
 * downloaded: trimming to the latest quarters in date order, the derived
 * balance-sheet ratios, the free-cash-flow fallback and the renaming of
 * alternative line-item labels to the names the scorers read.
 */
module DataFetcher {
  import opened Wrappers
  import opened Statements
  import opened Frames

  // ---------------------------------------------------------------------
  // _prepare_df
  // ---------------------------------------------------------------------

  /**
   * A downloaded statement after transposition: one row per reporting date
   * (`dates`, already parsed to a number that orders like the timestamp)
   * and one column per line item.
   */
  datatype Raw = Raw(dates: seq<int>, body: Table)

  /** The raw statement is well formed and has no column that the reset index would collide with. */
  ghost predicate RawValid(raw: Raw) {
    raw.body.Valid() && |raw.dates| == raw.body.height && "Date" !in raw.body.cols
  }

  /** Every position indexes `dates`. */
  predicate InRange(ps: seq<nat>, dates: seq<int>) {
    forall i :: 0 <= i < |ps| ==> ps[i] < |dates|
  }

  /** The positions are in ascending date order. */
  predicate SortedBy(ps: seq<nat>, dates: seq<int>)
    requires InRange(ps, dates)
  {
    forall i, j :: 0 <= i < j < |ps| ==> dates[ps[i]] <= dates[ps[j]]
  }

  /** Inserts position `p` before the first position with a later or equal date. */
  function Insert(p: nat, ps: seq<nat>, dates: seq<int>): (r: seq<nat>)
    requires p < |dates| && InRange(ps, dates)
    ensures InRange(r, dates) && |r| == |ps| + 1
    ensures multiset(r) == multiset(ps) + multiset{p}
  {
    if ps == [] then [p]
    else if dates[p] <= dates[ps[0]] then [p] + ps
    else
      assert ps == [ps[0]] + ps[1..];
      [ps[0]] + Insert(p, ps[1..], dates)
  }

  /** Inserting into a date-ordered sequence keeps it date-ordered. */
  lemma {:induction false} InsertSorted(p: nat, ps: seq<nat>, dates: seq<int>)
    requires p < |dates| && InRange(ps, dates) && SortedBy(ps, dates)
    ensures SortedBy(Insert(p, ps, dates), dates)
  {
    if ps == [] {
    } else if dates[p] <= dates[ps[0]] {
      forall k | 0 <= k < |ps|
        ensures dates[p] <= dates[ps[k]]
      {
        if k > 0 {
          assert dates[ps[0]] <= dates[ps[k]];
        }
      }
      ConsSorted(p, ps, dates);
    } else {
      var rest := Insert(p, ps[1..], dates);
      InsertSorted(p, ps[1..], dates);
      forall k | 0 <= k < |rest|
        ensures dates[ps[0]] <= dates[rest[k]]
      {
        assert rest[k] in multiset(rest);
        if rest[k] != p {
          assert rest[k] in multiset(ps[1..]);
          var m :| 0 <= m < |ps[1..]| && ps[1..][m] == rest[k];
          assert ps[m + 1] == rest[k];
        }
      }
      ConsSorted(ps[0], rest, dates);
    }
  }

  /** A position no later than every position of a date-ordered sequence can go in front of it. */
  lemma {:induction false} ConsSorted(x: nat, rest: seq<nat>, dates: seq<int>)
    requires x < |dates| && InRange(rest, dates) && SortedBy(rest, dates)
    requires forall k :: 0 <= k < |rest| ==> dates[x] <= dates[rest[k]]
    ensures InRange([x] + rest, dates) && SortedBy([x] + rest, dates)
  {
    var r := [x] + rest;
    forall i, j | 0 <= i < j < |r|
      ensures dates[r[i]] <= dates[r[j]]
    {
      assert r[j] == rest[j - 1];
      if i > 0 {
        assert r[i] == rest[i - 1];
      }
    }
  }

  /** Insertion sort of row positions by date. */
  function SortByDate(ps: seq<nat>, dates: seq<int>): (r: seq<nat>)
    requires InRange(ps, dates)
    ensures InRange(r, dates) && |r| == |ps|
    ensures multiset(r) == multiset(ps)
    ensures SortedBy(r, dates)
  {
    if ps == [] then []
    else
      assert ps == [ps[0]] + ps[1..];
      var sorted := SortByDate(ps[1..], dates);
      InsertSorted(ps[0], sorted, dates);
      Insert(ps[0], sorted, dates)
  }

  /** The row positions 0 .. h - 1. */
  function Positions(h: nat): (r: seq<nat>)
    ensures |r| == h && forall i :: 0 <= i < h ==> r[i] == i
  {
    seq(h, i requires 0 <= i < h => i)
  }

  function Min(a: nat, b: nat): nat {
    if a < b then a else b
  }

  /** All rows in ascending date order. */
  function DateOrder(dates: seq<int>): (r: seq<nat>)
    ensures InRange(r, dates) && |r| == |dates| && SortedBy(r, dates)
    ensures multiset(r) == multiset(Positions(|dates|))
  {
    SortByDate(Positions(|dates|), dates)
  }

  /** The rows `head(num_quarters)` keeps after the descending sort, in ascending order. */
  function Kept(dates: seq<int>, numQuarters: nat): (r: seq<nat>)
    ensures InRange(r, dates)
  {
    DateOrder(dates)[|dates| - Min(numQuarters, |dates|)..]
  }

  /** The rows the trim drops. */
  function Dropped(dates: seq<int>, numQuarters: nat): (r: seq<nat>)
    ensures InRange(r, dates)
  {
    DateOrder(dates)[..|dates| - Min(numQuarters, |dates|)]
  }

  /**
   * The trim: it keeps `min(num_quarters, rows)` rows, in ascending date
   * order; kept and dropped rows together are a permutation of all rows;
   * and no dropped row is later than a kept one.
   */
  lemma {:induction false} KeptRows(dates: seq<int>, numQuarters: nat)
    ensures |Kept(dates, numQuarters)| == Min(numQuarters, |dates|)
    ensures SortedBy(Kept(dates, numQuarters), dates)
    ensures multiset(Dropped(dates, numQuarters) + Kept(dates, numQuarters)) == multiset(Positions(|dates|))
    ensures forall i, j :: 0 <= i < |Dropped(dates, numQuarters)| && 0 <= j < |Kept(dates, numQuarters)| ==>
      dates[Dropped(dates, numQuarters)[i]] <= dates[Kept(dates, numQuarters)[j]]
  {
    var order := DateOrder(dates);
    var cut := |dates| - Min(numQuarters, |dates|);
    assert order == order[..cut] + order[cut..];
    forall i, j | 0 <= i < |Dropped(dates, numQuarters)| && 0 <= j < |Kept(dates, numQuarters)|
      ensures dates[Dropped(dates, numQuarters)[i]] <= dates[Kept(dates, numQuarters)[j]]
    {
      assert Dropped(dates, numQuarters)[i] == order[i];
      assert Kept(dates, numQuarters)[j] == order[cut + j];
    }
  }

  /** The cells of a column at the given rows. */
  function Pick(cells: seq<Cell>, rows: seq<nat>): (r: seq<Cell>)
    requires forall i :: 0 <= i < |rows| ==> rows[i] < |cells|
    ensures |r| == |rows| && forall i :: 0 <= i < |rows| ==> r[i] == cells[rows[i]]
  {
    seq(|rows|, i requires 0 <= i < |rows| => cells[rows[i]])
  }

  /** The reset index as a column: the date of each kept row. */
  function DateCells(dates: seq<int>, rows: seq<nat>): (r: seq<Cell>)
    requires InRange(rows, dates)
    ensures |r| == |rows| && forall i :: 0 <= i < |rows| ==> r[i] == Some(dates[rows[i]] as real)
  {
    seq(|rows|, i requires 0 <= i < |rows| => Some(dates[rows[i]] as real))
  }

  /**
   * `_prepare_df`: nothing for an empty statement (no rows or no columns);
   * otherwise the latest `num_quarters` rows in ascending date order, with
   * the dates as a leading "Date" column.
   */
  function PrepareDf(raw: Raw, numQuarters: nat): (r: Option<Table>)
    requires RawValid(raw)
    ensures r.None? <==> raw.body.height == 0 || raw.body.names == []
    ensures r.Some? ==>
      && r.value.Valid()
      && r.value.height == Min(numQuarters, raw.body.height)
      && r.value.names == ["Date"] + raw.body.names
      && r.value.cols["Date"] == Column(Timestamp, DateCells(raw.dates, Kept(raw.dates, numQuarters)))
      && forall c :: c in raw.body.cols ==>
           r.value.cols[c] == Column(raw.body.cols[c].kind, Pick(raw.body.cols[c].cells, Kept(raw.dates, numQuarters)))
  {
    if raw.body.height == 0 || raw.body.names == [] then None
    else
      KeptRows(raw.dates, numQuarters);
      Some(Trimmed(raw, Kept(raw.dates, numQuarters)))
  }

  /** The statement restricted to `rows`, in that order, with their dates as a leading "Date" column. */
  function Trimmed(raw: Raw, rows: seq<nat>): (r: Table)
    requires RawValid(raw) && InRange(rows, raw.dates)
    ensures r.Valid() && r.height == |rows| && r.names == ["Date"] + raw.body.names
    ensures r.cols["Date"] == Column(Timestamp, DateCells(raw.dates, rows))
    ensures forall c :: c in raw.body.cols ==>
      r.cols[c] == Column(raw.body.cols[c].kind, Pick(raw.body.cols[c].cells, rows))
  {
    var body := map c | c in raw.body.cols :: Column(raw.body.cols[c].kind, Pick(raw.body.cols[c].cells, rows));
    var t := Table(["Date"] + raw.body.names, body["Date" := Column(Timestamp, DateCells(raw.dates, rows))], |rows|);
    TrimmedValid(raw, rows, t);
    t
  }

  lemma {:induction false} TrimmedValid(raw: Raw, rows: seq<nat>, t: Table)
    requires RawValid(raw) && InRange(rows, raw.dates)
    requires t.names == ["Date"] + raw.body.names && t.height == |rows|
    requires t.cols.Keys == raw.body.cols.Keys + {"Date"}
    requires forall c :: c in t.cols ==> |t.cols[c].cells| == |rows|
    ensures t.Valid()
  {
    assert forall i :: 1 <= i < |t.names| ==> t.names[i] == raw.body.names[i - 1];
    forall c ensures c in t.cols <==> c in t.names {
      if c in raw.body.names {
        var k :| 0 <= k < |raw.body.names| && raw.body.names[k] == c;
        assert t.names[k + 1] == c;
      }
    }
  }

  /** A prepared statement's dates ascend and no quarter that was cut is later than one that was kept. */
  lemma {:induction false} PreparedDatesAscend(raw: Raw, numQuarters: nat, i: nat, j: nat)
    requires RawValid(raw) && PrepareDf(raw, numQuarters).Some?
    requires i < j < PrepareDf(raw, numQuarters).value.height
    ensures PrepareDf(raw, numQuarters).value.cols["Date"].cells[i].Some?
    ensures PrepareDf(raw, numQuarters).value.cols["Date"].cells[j].Some?
    ensures PrepareDf(raw, numQuarters).value.cols["Date"].cells[i].value
            <= PrepareDf(raw, numQuarters).value.cols["Date"].cells[j].value
  {
    KeptRows(raw.dates, numQuarters);
    var kept := Kept(raw.dates, numQuarters);
    assert raw.dates[kept[i]] <= raw.dates[kept[j]];
  }

  // ---------------------------------------------------------------------
  // Column lookup and label standardisation
  // ---------------------------------------------------------------------

  /** `next((c for c in candidates if c in df.columns), None)`: the first candidate that is a label. */
  function FirstPresent(t: Table, candidates: seq<string>): (r: Option<string>)
    ensures r.Some? ==> r.value in t.cols && r.value in candidates
    ensures r.None? <==> forall c :: c in candidates ==> c !in t.cols
  {
    if candidates == [] then None
    else if candidates[0] in t.cols then Some(candidates[0])
    else
      assert forall c :: c in candidates ==> c == candidates[0] || c in candidates[1..];
      FirstPresent(t, candidates[1..])
  }

  /** No candidate before the one `FirstPresent` picks is a label. */
  lemma {:induction false} FirstPresentIsFirst(t: Table, candidates: seq<string>, j: nat)
    requires j < |candidates| && candidates[j] in t.cols
    ensures FirstPresent(t, candidates).Some?
    ensures FirstPresent(t, candidates).value in candidates[..j + 1]
  {
    if candidates[0] !in t.cols {
      FirstPresentIsFirst(t, candidates[1..], j - 1);
      assert candidates[1..][..j] == candidates[1..j + 1];
    }
  }

  /** Two tables that agree on which candidates are labels pick the same first candidate. */
  lemma {:induction false} FirstPresentAgrees(t: Table, u: Table, candidates: seq<string>)
    requires forall c :: c in candidates ==> (c in t.cols <==> c in u.cols)
    ensures FirstPresent(t, candidates) == FirstPresent(u, candidates)
  {
    if candidates != [] {
      assert candidates[0] in candidates;
      assert forall c :: c in candidates[1..] ==> c in candidates;
      FirstPresentAgrees(t, u, candidates[1..]);
    }
  }

  /**
   * Renaming an alternative label to the canonical one, as the loops in the
   * three fetchers intend: nothing happens when the canonical label exists;
   * otherwise the first alias present is renamed to it and every other
   * column, other aliases included, is left as it was.
   */
  function Standardized(t: Table, aliases: seq<string>, canonical: string): (r: Table)
    requires t.Valid()
    ensures r.Valid() && r.height == t.height
    ensures canonical in t.cols || FirstPresent(t, aliases).None? ==> r == t
    ensures canonical !in t.cols && FirstPresent(t, aliases).Some? ==>
      && FirstPresent(t, aliases).value in t.cols
      && r == t.Renamed(FirstPresent(t, aliases).value, canonical)
  {
    if canonical in t.cols || aliases == [] then t
    else if aliases[0] in t.cols then
      RenamedValid(t, aliases[0], canonical);
      t.Renamed(aliases[0], canonical)
    else Standardized(t, aliases[1..], canonical)
  }

  /** What the standardisation guarantees: the canonical label exists exactly when it or an alias did, and no label repeats. */
  lemma {:induction false} StandardizedLabels(t: Table, aliases: seq<string>, canonical: string)
    requires t.Valid()
    ensures Standardized(t, aliases, canonical).Valid()
    ensures canonical in Standardized(t, aliases, canonical).cols <==> canonical in t.cols || FirstPresent(t, aliases).Some?
    ensures forall c :: c in t.cols && c !in aliases ==>
      c in Standardized(t, aliases, canonical).cols && Standardized(t, aliases, canonical).cols[c] == t.cols[c]
    ensures forall c :: c in Standardized(t, aliases, canonical).cols && c != canonical ==> c in t.cols
  {
    var r := Standardized(t, aliases, canonical);
    if canonical !in t.cols && FirstPresent(t, aliases).Some? {
      var a := FirstPresent(t, aliases).value;
      RenamedValid(t, a, canonical);
      forall c | c in t.cols && c !in aliases
        ensures c in r.cols && r.cols[c] == t.cols[c]
      {
        assert c != a && c != canonical;
      }
    }
  }

  /** `df.rename(columns={alias: canonical}, inplace=True)` for the first alias present, when the canonical label is absent. */
  method Standardize(df: Frame, aliases: seq<string>, canonical: string)
    requires df.Valid()
    modifies df
    ensures df.Valid()
    ensures df.View() == Standardized(old(df.View()), aliases, canonical)
  {
    if canonical !in df.cols {
      var i := 0;
      while i < |aliases| && canonical !in df.cols
        invariant 0 <= i <= |aliases|
        invariant df.Valid()
        invariant Standardized(df.View(), aliases[i..], canonical) == Standardized(old(df.View()), aliases, canonical)
      {
        assert aliases[i..][1..] == aliases[i + 1..];
        if aliases[i] in df.cols {
          df.Rename(aliases[i], canonical);
        }
        i := i + 1;
      }
    }
  }

  /**
   * The labels the loops produce as written: with the canonical label
   * absent, every alias present is renamed, so two aliases present become
   * two columns with the same label.
   */
  function AliasLabelsAsWritten(names: seq<string>, aliases: seq<string>, canonical: string): (r: seq<string>)
    ensures |r| == |names|
    ensures canonical in names ==> r == names
  {
    if canonical in names then names else RenameEach(names, aliases, canonical)
  }

  function RenameEach(names: seq<string>, aliases: seq<string>, canonical: string): (r: seq<string>)
    ensures |r| == |names|
    decreases aliases
  {
    if aliases == [] then names
    else RenameEach(if aliases[0] in names then Relabel(names, aliases[0], canonical) else names, aliases[1..], canonical)
  }

  const TotalAssetAliases: seq<string> := ["Total Asset", "TotalAssets"]

  /** A balance sheet carrying both alternative asset labels ends up with "Total Assets" twice. */
  lemma {:induction false} AsWrittenDuplicatesTotalAssets()
    ensures AliasLabelsAsWritten(["Total Asset", "TotalAssets"], TotalAssetAliases, "Total Assets")
            == ["Total Assets", "Total Assets"]
  {
    var names: seq<string> := ["Total Asset", "TotalAssets"];
    assert "Total Assets" !in names;
    var once := Relabel(names, "Total Asset", "Total Assets");
    assert once == ["Total Assets", "TotalAssets"];
    assert "TotalAssets" in once;
    var twice := Relabel(once, "TotalAssets", "Total Assets");
    assert twice == ["Total Assets", "Total Assets"];
    assert RenameEach(twice, [], "Total Assets") == twice;
    assert RenameEach(once, ["TotalAssets"], "Total Assets") == twice;
    assert RenameEach(names, TotalAssetAliases, "Total Assets") == twice;
  }

  /** On the same balance sheet the corrected loop keeps the labels distinct. */
  lemma {:induction false} CorrectedKeepsOneTotalAssets(t: Table)
    requires t.Valid() && t.names == ["Total Asset", "TotalAssets"]
    ensures Standardized(t, TotalAssetAliases, "Total Assets").names == ["Total Assets", "TotalAssets"]
  {
    assert t.names[0] == "Total Asset" && t.names[1] == "TotalAssets";
    assert "Total Asset" in t.cols && "Total Assets" !in t.cols;
    assert FirstPresent(t, TotalAssetAliases) == Some("Total Asset");
    var names := Relabel(t.names, "Total Asset", "Total Assets");
    assert names[0] == "Total Assets" && names[1] == "TotalAssets";
  }

  // ---------------------------------------------------------------------
  // get_balance_sheet_data
  // ---------------------------------------------------------------------

  const LiabilityLabels: seq<string> := ["Total Liab", "Total Liabilities Net Minority Interest", "Total Liabilities"]
  const EquityLabels: seq<string> :=
    ["Total Stockholder Equity", "Total Equity Gross Minority Interest", "Ordinary Shares Number"]

  /** `df[c] = cells` on a table value: the numeric column is set and every other column kept. */
  function Derived(t: Table, c: string, cells: seq<Cell>): (r: Table)
    requires t.Valid() && |cells| == t.height
    ensures r.Valid() && r.height == t.height
    ensures c in r.cols && r.cols[c] == Column(Numeric, cells)
    ensures forall d :: d in t.cols ==> d in r.cols
    ensures r.cols.Keys == t.cols.Keys + {c}
    ensures forall d :: d in r.cols && d != c ==> d in t.cols && r.cols[d] == t.cols[d]
  {
    WithValid(t, c, Column(Numeric, cells));
    t.With(c, Column(Numeric, cells))
  }

  /** "Debt_to_Equity": the first liability label over the first equity label, when both exist. */
  function DebtToEquityAdded(t: Table): (r: Table)
    requires t.Valid()
    ensures r.Valid() && r.height == t.height
    ensures FirstPresent(t, LiabilityLabels).Some? && FirstPresent(t, EquityLabels).Some? ==>
      && "Debt_to_Equity" in r.cols
      && r.cols["Debt_to_Equity"] == Column(Numeric, Ratio(t.cols[FirstPresent(t, LiabilityLabels).value].cells,
                                                          t.cols[FirstPresent(t, EquityLabels).value].cells))
    ensures !(FirstPresent(t, LiabilityLabels).Some? && FirstPresent(t, EquityLabels).Some?) ==> r == t
    ensures forall c :: c in t.cols ==> c in r.cols
    ensures forall c :: c in r.cols && c != "Debt_to_Equity" ==> c in t.cols && r.cols[c] == t.cols[c]
    ensures r.cols.Keys ==
      t.cols.Keys + (if FirstPresent(t, LiabilityLabels).Some? && FirstPresent(t, EquityLabels).Some? then {"Debt_to_Equity"} else {})
  {
    var liab := FirstPresent(t, LiabilityLabels);
    var equity := FirstPresent(t, EquityLabels);
    if liab.Some? && equity.Some? then
      Derived(t, "Debt_to_Equity", Ratio(t.cols[liab.value].cells, t.cols[equity.value].cells))
    else t
  }

  /**
   * A derived ratio column `name`, `num` over `den` cell by cell, added
   * when both source columns exist ("Current_Ratio" and "Cash_to_Assets").
   */
  function RatioAdded(t: Table, name: string, num: string, den: string): (r: Table)
    requires t.Valid()
    ensures r.Valid() && r.height == t.height
    ensures num in t.cols && den in t.cols ==>
      name in r.cols && r.cols[name] == Column(Numeric, Ratio(t.cols[num].cells, t.cols[den].cells))
    ensures !(num in t.cols && den in t.cols) ==> r == t
    ensures forall c :: c in t.cols ==> c in r.cols
    ensures forall c :: c in r.cols && c != name ==> c in t.cols && r.cols[c] == t.cols[c]
    ensures r.cols.Keys == t.cols.Keys + (if num in t.cols && den in t.cols then {name} else {})
  {
    if num in t.cols && den in t.cols then Derived(t, name, Ratio(t.cols[num].cells, t.cols[den].cells)) else t
  }

  /** The derived labels differ from one another and from every label they are computed from. */
  lemma {:induction false} RatioLabelsDistinct()
    ensures "Debt_to_Equity" != "Current_Ratio" && "Debt_to_Equity" != "Cash_to_Assets"
    ensures "Current_Ratio" != "Cash_to_Assets"
    ensures "Total Current Assets" != "Debt_to_Equity" && "Total Current Liabilities" != "Debt_to_Equity"
    ensures "Cash" != "Debt_to_Equity" && "Cash" != "Current_Ratio"
    ensures "Total Assets" != "Debt_to_Equity" && "Total Assets" != "Current_Ratio"
    ensures forall c :: c in TotalAssetAliases ==> c != "Debt_to_Equity" && c != "Current_Ratio" && c != "Cash_to_Assets"
  {
  }

  /** The three ratios, each added only when its inputs exist, in the order the fetcher adds them. */
  function BalanceSheetRatios(t: Table): (r: Table)
    requires t.Valid()
    ensures r.Valid() && r.height == t.height
    ensures FirstPresent(t, LiabilityLabels).Some? && FirstPresent(t, EquityLabels).Some? ==>
      && "Debt_to_Equity" in r.cols
      && r.cols["Debt_to_Equity"] == Column(Numeric, Ratio(t.cols[FirstPresent(t, LiabilityLabels).value].cells,
                                                          t.cols[FirstPresent(t, EquityLabels).value].cells))
    ensures "Total Current Assets" in t.cols && "Total Current Liabilities" in t.cols ==>
      && "Current_Ratio" in r.cols
      && r.cols["Current_Ratio"] == Column(Numeric, Ratio(t.cols["Total Current Assets"].cells,
                                                         t.cols["Total Current Liabilities"].cells))
    ensures "Cash" in t.cols && "Total Assets" in t.cols ==>
      && "Cash_to_Assets" in r.cols
      && r.cols["Cash_to_Assets"] == Column(Numeric, Ratio(t.cols["Cash"].cells, t.cols["Total Assets"].cells))
    ensures forall c :: c in t.cols ==> c in r.cols
    ensures forall c :: c in r.cols && c != "Debt_to_Equity" && c != "Current_Ratio" && c != "Cash_to_Assets" ==>
      c in t.cols && r.cols[c] == t.cols[c]
  {
    RatioLabelsDistinct();
    var t1 := DebtToEquityAdded(t);
    var t2 := RatioAdded(t1, "Current_Ratio", "Total Current Assets", "Total Current Liabilities");
    RatioAdded(t2, "Cash_to_Assets", "Cash", "Total Assets")
  }

  /** One label is in a table after `DebtToEquityAdded` exactly when it was before or it is the new ratio. */
  lemma {:induction false} DebtToEquityHas(t: Table, x: string)
    requires t.Valid()
    ensures x in DebtToEquityAdded(t).cols <==>
      x in t.cols || (x == "Debt_to_Equity" && FirstPresent(t, LiabilityLabels).Some? && FirstPresent(t, EquityLabels).Some?)
  {
    var r := DebtToEquityAdded(t);
    assert x in r.cols <==> x in r.cols.Keys;
  }

  /** One label is in a table after `RatioAdded` exactly when it was before or it is the new ratio. */
  lemma {:induction false} RatioAddedHas(t: Table, name: string, num: string, den: string, x: string)
    requires t.Valid()
    ensures x in RatioAdded(t, name, num, den).cols <==> x in t.cols || (x == name && num in t.cols && den in t.cols)
  {
    var r := RatioAdded(t, name, num, den);
    assert x in r.cols <==> x in r.cols.Keys;
  }

  /** Each ratio column is there afterwards exactly when it was before or its inputs were. */
  lemma {:induction false} BalanceSheetRatiosPresence(t: Table)
    requires t.Valid()
    ensures "Debt_to_Equity" in BalanceSheetRatios(t).cols <==>
      "Debt_to_Equity" in t.cols || (FirstPresent(t, LiabilityLabels).Some? && FirstPresent(t, EquityLabels).Some?)
    ensures "Current_Ratio" in BalanceSheetRatios(t).cols <==>
      "Current_Ratio" in t.cols || ("Total Current Assets" in t.cols && "Total Current Liabilities" in t.cols)
    ensures "Cash_to_Assets" in BalanceSheetRatios(t).cols <==> "Cash_to_Assets" in t.cols || ("Cash" in t.cols && "Total Assets" in t.cols)
  {
    RatioLabelsDistinct();
    var t1 := DebtToEquityAdded(t);
    var t2 := RatioAdded(t1, "Current_Ratio", "Total Current Assets", "Total Current Liabilities");
    assert BalanceSheetRatios(t) == RatioAdded(t2, "Cash_to_Assets", "Cash", "Total Assets");
    DebtToEquityHas(t, "Debt_to_Equity");
    DebtToEquityHas(t, "Current_Ratio");
    DebtToEquityHas(t, "Cash_to_Assets");
    DebtToEquityHas(t, "Total Current Assets");
    DebtToEquityHas(t, "Total Current Liabilities");
    DebtToEquityHas(t, "Cash");
    DebtToEquityHas(t, "Total Assets");
    RatioAddedHas(t1, "Current_Ratio", "Total Current Assets", "Total Current Liabilities", "Debt_to_Equity");
    RatioAddedHas(t1, "Current_Ratio", "Total Current Assets", "Total Current Liabilities", "Current_Ratio");
    RatioAddedHas(t1, "Current_Ratio", "Total Current Assets", "Total Current Liabilities", "Cash_to_Assets");
    RatioAddedHas(t1, "Current_Ratio", "Total Current Assets", "Total Current Liabilities", "Cash");
    RatioAddedHas(t1, "Current_Ratio", "Total Current Assets", "Total Current Liabilities", "Total Assets");
    RatioAddedHas(t2, "Cash_to_Assets", "Cash", "Total Assets", "Debt_to_Equity");
    RatioAddedHas(t2, "Cash_to_Assets", "Cash", "Total Assets", "Current_Ratio");
    RatioAddedHas(t2, "Cash_to_Assets", "Cash", "Total Assets", "Cash_to_Assets");
  }

  /** The balance sheet as `get_balance_sheet_data` returns it: the ratios, then the asset label standardised. */
  function BalanceSheetDerived(t: Table): (r: Table)
    requires t.Valid()
    ensures r.Valid() && r.height == t.height
    ensures "Total Assets" in r.cols <==> "Total Assets" in t.cols || FirstPresent(t, TotalAssetAliases).Some?
    ensures forall c :: c in BalanceSheetRatios(t).cols && c !in TotalAssetAliases ==>
      c in r.cols && r.cols[c] == BalanceSheetRatios(t).cols[c]
    ensures forall c :: c in r.cols && c != "Total Assets" ==> c in BalanceSheetRatios(t).cols
    ensures "Debt_to_Equity" in r.cols <==>
      "Debt_to_Equity" in t.cols || (FirstPresent(t, LiabilityLabels).Some? && FirstPresent(t, EquityLabels).Some?)
    ensures "Current_Ratio" in r.cols <==>
      "Current_Ratio" in t.cols || ("Total Current Assets" in t.cols && "Total Current Liabilities" in t.cols)
    ensures "Cash_to_Assets" in r.cols <==> "Cash_to_Assets" in t.cols || ("Cash" in t.cols && "Total Assets" in t.cols)
    ensures "Total Assets" !in t.cols && "Cash_to_Assets" !in t.cols ==> "Cash_to_Assets" !in r.cols
  {
    var ratios := BalanceSheetRatios(t);
    BalanceSheetRatiosPresence(t);
    RatioLabelsDistinct();
    assert "Total Assets" in ratios.cols <==> "Total Assets" in t.cols;
    FirstPresentAgrees(ratios, t, TotalAssetAliases);
    StandardizedLabels(ratios, TotalAssetAliases, "Total Assets");
    Standardized(ratios, TotalAssetAliases, "Total Assets")
  }

  method DeriveBalanceSheet(df: Frame)
    requires df.Valid()
    modifies df
    ensures df.Valid()
    ensures df.View() == BalanceSheetDerived(old(df.View()))
  {
    var liab := FirstPresent(df.View(), LiabilityLabels);
    var equity := FirstPresent(df.View(), EquityLabels);
    if liab.Some? && equity.Some? {
      df.Assign("Debt_to_Equity", Ratio(df.cols[liab.value].cells, df.cols[equity.value].cells));
    }
    if "Total Current Assets" in df.cols && "Total Current Liabilities" in df.cols {
      df.Assign("Current_Ratio", Ratio(df.cols["Total Current Assets"].cells, df.cols["Total Current Liabilities"].cells));
    }
    if "Cash" in df.cols && "Total Assets" in df.cols {
      df.Assign("Cash_to_Assets", Ratio(df.cols["Cash"].cells, df.cols["Total Assets"].cells));
    }
    Standardize(df, TotalAssetAliases, "Total Assets");
  }

  // ---------------------------------------------------------------------
  // get_income_statement_data
  // ---------------------------------------------------------------------

  const RevenueAliases: seq<string> := ["TotalRevenue", "Revenues"]
  const GrossProfitAliases: seq<string> := ["GrossProfit"]
  const NetIncomeAliases: seq<string> := ["NetIncome", "Net Income Applicable To Common Shares"]

  /** The income statement with revenue, gross profit and net income under their canonical labels where any variant exists. */
  function IncomeStandardized(t: Table): (r: Table)
    requires t.Valid()
    ensures r.Valid() && r.height == t.height
    ensures "Total Revenue" in r.cols <==> "Total Revenue" in t.cols || FirstPresent(t, RevenueAliases).Some?
    ensures "Gross Profit" in r.cols <==> "Gross Profit" in t.cols || FirstPresent(t, GrossProfitAliases).Some?
    ensures "Net Income" in r.cols <==> "Net Income" in t.cols || FirstPresent(t, NetIncomeAliases).Some?
    ensures forall c :: c in t.cols && c !in RevenueAliases && c !in GrossProfitAliases && c !in NetIncomeAliases ==>
      c in r.cols && r.cols[c] == t.cols[c]
    ensures forall c :: c in r.cols && c != "Total Revenue" && c != "Gross Profit" && c != "Net Income" ==> c in t.cols
  {
    IncomeLabelsDistinct();
    var t1 := Standardized(t, RevenueAliases, "Total Revenue");
    StandardizedLabels(t, RevenueAliases, "Total Revenue");
    FirstPresentAgrees(t1, t, GrossProfitAliases);
    FirstPresentAgrees(t1, t, NetIncomeAliases);
    var t2 := Standardized(t1, GrossProfitAliases, "Gross Profit");
    StandardizedLabels(t1, GrossProfitAliases, "Gross Profit");
    FirstPresentAgrees(t2, t1, NetIncomeAliases);
    StandardizedLabels(t2, NetIncomeAliases, "Net Income");
    Standardized(t2, NetIncomeAliases, "Net Income")
  }

  /** The three canonical labels and their variants are all different. */
  lemma {:induction false} IncomeLabelsDistinct()
    ensures forall c :: c in RevenueAliases ==> c != "Gross Profit" && c != "Net Income" && c !in GrossProfitAliases && c !in NetIncomeAliases
    ensures forall c :: c in GrossProfitAliases ==> c != "Total Revenue" && c != "Net Income" && c !in NetIncomeAliases
    ensures forall c :: c in NetIncomeAliases ==> c != "Total Revenue" && c != "Gross Profit"
    ensures "Total Revenue" != "Gross Profit" && "Total Revenue" != "Net Income" && "Gross Profit" != "Net Income"
    ensures "Total Revenue" !in GrossProfitAliases && "Total Revenue" !in NetIncomeAliases
    ensures "Gross Profit" !in RevenueAliases && "Gross Profit" !in NetIncomeAliases
    ensures "Net Income" !in RevenueAliases && "Net Income" !in GrossProfitAliases
  {
  }

  method DeriveIncomeStatement(df: Frame)
    requires df.Valid()
    modifies df
    ensures df.Valid()
    ensures df.View() == IncomeStandardized(old(df.View()))
  {
    Standardize(df, RevenueAliases, "Total Revenue");
    Standardize(df, GrossProfitAliases, "Gross Profit");
    Standardize(df, NetIncomeAliases, "Net Income");
  }

  // ---------------------------------------------------------------------
  // get_cash_flow_data
  // ---------------------------------------------------------------------

  const OperatingCashFlow := "Total Cash From Operating Activities"
  const CapexAliases: seq<string> := ["Capital Expenditures", "CapitalExpenditures"]

  /** Free cash flow when the statement lacks it: operating cash flow minus |capital expenditures|. */
  function FreeCashFlowAdded(t: Table): (r: Table)
    requires t.Valid()
    ensures r.Valid() && r.height == t.height
    ensures "Free Cash Flow" in r.cols <==>
      "Free Cash Flow" in t.cols || (OperatingCashFlow in t.cols && "Capital Expenditures" in t.cols)
    ensures "Free Cash Flow" !in t.cols && OperatingCashFlow in t.cols && "Capital Expenditures" in t.cols ==>
      r.cols["Free Cash Flow"] == Column(Numeric, Difference(t.cols[OperatingCashFlow].cells,
                                                             Magnitudes(t.cols["Capital Expenditures"].cells)))
    ensures !("Free Cash Flow" !in t.cols && OperatingCashFlow in t.cols && "Capital Expenditures" in t.cols) ==> r == t
    ensures forall c :: c in t.cols ==> c in r.cols && r.cols[c] == t.cols[c]
    ensures forall c :: c in r.cols && c != "Free Cash Flow" ==> c in t.cols
  {
    if "Free Cash Flow" !in t.cols && OperatingCashFlow in t.cols && "Capital Expenditures" in t.cols then
      Derived(t, "Free Cash Flow", Difference(t.cols[OperatingCashFlow].cells,
                                              Magnitudes(t.cols["Capital Expenditures"].cells)))
    else t
  }

  /**
   * The cash-flow statement as `get_cash_flow_data` returns it. Because the
   * expenditure column is renamed whenever "Capital Expenditure" is absent,
   * "Capital Expenditures" survives only next to "Capital Expenditure".
   */
  function CashFlowDerived(t: Table): (r: Table)
    requires t.Valid()
    ensures r.Valid() && r.height == t.height
    ensures "Free Cash Flow" in r.cols <==>
      "Free Cash Flow" in t.cols || (OperatingCashFlow in t.cols && "Capital Expenditures" in t.cols)
    ensures "Capital Expenditure" in r.cols <==> "Capital Expenditure" in t.cols || FirstPresent(t, CapexAliases).Some?
    ensures "Capital Expenditures" in r.cols ==> "Capital Expenditure" in t.cols
    ensures "Free Cash Flow" !in t.cols && OperatingCashFlow in t.cols && "Capital Expenditures" in t.cols ==>
      && "Free Cash Flow" in r.cols
      && r.cols["Free Cash Flow"] == Column(Numeric, Difference(t.cols[OperatingCashFlow].cells,
                                                                Magnitudes(t.cols["Capital Expenditures"].cells)))
    ensures forall c :: c in t.cols && c !in CapexAliases ==> c in r.cols && r.cols[c] == t.cols[c]
    ensures forall c :: c in r.cols && c != "Free Cash Flow" && c != "Capital Expenditure" ==> c in t.cols
  {
    var t1 := FreeCashFlowAdded(t);
    assert "Free Cash Flow" !in CapexAliases && "Free Cash Flow" != "Capital Expenditure";
    FirstPresentAgrees(t1, t, CapexAliases);
    StandardizedLabels(t1, CapexAliases, "Capital Expenditure");
    CapexRenamedAway(t1);
    Standardized(t1, CapexAliases, "Capital Expenditure")
  }

  /** With "Capital Expenditure" absent, the standardisation always renames "Capital Expenditures" away. */
  lemma {:induction false} CapexRenamedAway(t: Table)
    requires t.Valid()
    ensures "Capital Expenditures" in Standardized(t, CapexAliases, "Capital Expenditure").cols ==>
      "Capital Expenditure" in t.cols
  {
    if "Capital Expenditure" !in t.cols && "Capital Expenditures" in t.cols {
      assert FirstPresent(t, CapexAliases) == Some("Capital Expenditures");
      RenamedValid(t, "Capital Expenditures", "Capital Expenditure");
    }
  }

  method DeriveCashFlow(df: Frame)
    requires df.Valid()
    modifies df
    ensures df.Valid()
    ensures df.View() == CashFlowDerived(old(df.View()))
  {
    if "Free Cash Flow" !in df.cols {
      if OperatingCashFlow in df.cols && "Capital Expenditures" in df.cols {
        df.Assign("Free Cash Flow", Difference(df.cols[OperatingCashFlow].cells,
                                               Magnitudes(df.cols["Capital Expenditures"].cells)));
      }
    }
    Standardize(df, CapexAliases, "Capital Expenditure");
  }

  // ---------------------------------------------------------------------
  // The fetchers, from the downloaded statement on
  // ---------------------------------------------------------------------

  /** `get_balance_sheet_data` after the download: prepare, then derive in place. */
  method GetBalanceSheetData(raw: Raw, numQuarters: nat) returns (df: Frame?)
    requires RawValid(raw)
    ensures df == null <==> PrepareDf(raw, numQuarters).None?
    ensures df != null ==> fresh(df) && df.Valid() && df.View() == BalanceSheetDerived(PrepareDf(raw, numQuarters).value)
  {
    var prepared := PrepareDf(raw, numQuarters);
    if prepared.None? {
      return null;
    }
    df := new Frame(prepared.value);
    DeriveBalanceSheet(df);
  }

  /** `get_income_statement_data` after the download. */
  method GetIncomeStatementData(raw: Raw, numQuarters: nat) returns (df: Frame?)
    requires RawValid(raw)
    ensures df == null <==> PrepareDf(raw, numQuarters).None?
    ensures df != null ==> fresh(df) && df.Valid() && df.View() == IncomeStandardized(PrepareDf(raw, numQuarters).value)
  {
    var prepared := PrepareDf(raw, numQuarters);
    if prepared.None? {
      return null;
    }
    df := new Frame(prepared.value);
    DeriveIncomeStatement(df);
  }

  /** `get_cash_flow_data` after the download. */
  method GetCashFlowData(raw: Raw, numQuarters: nat) returns (df: Frame?)
    requires RawValid(raw)
    ensures df == null <==> PrepareDf(raw, numQuarters).None?
    ensures df != null ==> fresh(df) && df.Valid() && df.View() == CashFlowDerived(PrepareDf(raw, numQuarters).value)
  {
    var prepared := PrepareDf(raw, numQuarters);
    if prepared.None? {
      return null;
    }
    df := new Frame(prepared.value);
    DeriveCashFlow(df);
  }
}
