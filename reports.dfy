/** The report engine: read-only aggregates over the store's current tables
    (calcular_saldos, calcular_totais_semanal, gerar_relatorio_parceiros).
    "Today" is a parameter, as a day number. */
module Reports {
  import opened Seqs
  import opened Store

  function Lodging(r: Reservation): int { r.lodging }
  function PartnerReceivable(p: Partner): int { p.receivable }
  function PartnerPayable(p: Partner): int { p.payable }
  function OwnerPayable(o: Owner): int { o.payable }

  /** The lookback window: check-in from seven days before today up to today,
      both ends included. */
  predicate InWeek(r: Reservation, today: int)
  {
    today - 7 <= r.checkIn <= today
  }

  /** The weekly subset: the reservations whose check-in lies in the window,
      each as often as in the table, in table order. */
  function Week(rows: seq<Reservation>, today: int): (w: seq<Reservation>)
    ensures forall x :: multiset(w)[x] == if InWeek(x, today) then multiset(rows)[x] else 0
    ensures forall x :: x in w <==> x in rows && InWeek(x, today)
    ensures IsSubsequence(w, rows)
  {
    var inWeek := (r: Reservation) => InWeek(r, today);
    FilterIsSubsequence(rows, inWeek);
    Filter(rows, inWeek)
  }

  /** The reservations outside the window. */
  function OutsideWeek(rows: seq<Reservation>, today: int): seq<Reservation>
  {
    Filter(rows, (r: Reservation) => !InWeek(r, today))
  }

  /** The distinct unit numbers among some reservations. */
  function UnitsOf(rows: seq<Reservation>): set<int>
  {
    set r | r in rows :: r.unit
  }

  lemma {:induction false} UnitsOfBound(rows: seq<Reservation>)
    ensures |UnitsOf(rows)| <= |rows|
    ensures rows != [] ==> |UnitsOf(rows)| >= 1
  {
    if rows != [] {
      UnitsOfBound(rows[1..]);
      assert UnitsOf(rows) == UnitsOf(rows[1..]) + {rows[0].unit} by {
        forall u | u in UnitsOf(rows) ensures u in UnitsOf(rows[1..]) + {rows[0].unit} {
          var r :| r in rows && r.unit == u;
          if r != rows[0] {
            assert r in rows[1..];
          }
        }
      }
      assert rows[0].unit in UnitsOf(rows);
    }
  }

  datatype Balances = Balances(revenue: int, partnerReceivable: int, partnerPayable: int)

  /** calcular_saldos: whole-table sums. The source fails when one of the three
      columns is missing. */
  function ComputeBalances(reservations: Table<Reservation>, partners: Table<Partner>): (b: Balances)
    requires LodgingColumn in reservations.columns
    requires ReceivableColumn in partners.columns && PayableColumn in partners.columns
    ensures b.revenue == Sum(reservations.rows, Lodging)
    ensures b.partnerReceivable == Sum(partners.rows, PartnerReceivable)
    ensures b.partnerPayable == Sum(partners.rows, PartnerPayable)
  {
    Balances(Sum(reservations.rows, Lodging),
             Sum(partners.rows, PartnerReceivable),
             Sum(partners.rows, PartnerPayable))
  }

  datatype WeeklySummary = WeeklySummary(
    week: seq<Reservation>,
    lodging: int,
    ownerPayable: int,
    partnerReceivable: int,
    occupiedUnits: nat)

  /** The reservations columns calcular_totais_semanal reads; without any of
      them the source fails. */
  predicate HasWeeklyColumns(reservations: Table<Reservation>)
  {
    CheckInColumn in reservations.columns && LodgingColumn in reservations.columns
    && UnitColumn in reservations.columns
  }

  /** calcular_totais_semanal. Lodging and occupancy are over the weekly subset;
      the owners' 'A pagar' and the partners' 'A receber' totals are over whole
      tables, each 0 when its column is absent, each guarded on its own. */
  function WeeklyTotals(reservations: Table<Reservation>, partners: Table<Partner>,
                        owners: Table<Owner>, today: int): (s: WeeklySummary)
    requires HasWeeklyColumns(reservations)
    ensures forall x :: multiset(s.week)[x] == if InWeek(x, today) then multiset(reservations.rows)[x] else 0
    ensures forall x :: x in s.week <==> x in reservations.rows && InWeek(x, today)
    ensures IsSubsequence(s.week, reservations.rows)
    ensures s.lodging == Sum(s.week, Lodging)
    ensures s.week == [] ==> s.lodging == 0 && s.occupiedUnits == 0
    ensures s.occupiedUnits == |UnitsOf(s.week)| && s.occupiedUnits <= |s.week|
    ensures s.ownerPayable == if PayableColumn in owners.columns then Sum(owners.rows, OwnerPayable) else 0
    ensures s.partnerReceivable == if ReceivableColumn in partners.columns then Sum(partners.rows, PartnerReceivable) else 0
  {
    var week := Week(reservations.rows, today);
    UnitsOfBound(week);
    WeeklySummary(
      week,
      Sum(week, Lodging),
      if PayableColumn in owners.columns then Sum(owners.rows, OwnerPayable) else 0,
      if ReceivableColumn in partners.columns then Sum(partners.rows, PartnerReceivable) else 0,
      |UnitsOf(week)|)
  }

  datatype PartnerSummary = PartnerSummary(table: Table<Partner>, receivable: int, payable: int)

  /** gerar_relatorio_parceiros: the partner table itself and both column sums,
      or 0 for both when either column is missing. */
  function PartnerReport(partners: Table<Partner>): (s: PartnerSummary)
    ensures s.table == partners
    ensures ReceivableColumn in partners.columns && PayableColumn in partners.columns ==>
      s.receivable == Sum(partners.rows, PartnerReceivable) && s.payable == Sum(partners.rows, PartnerPayable)
    ensures !(ReceivableColumn in partners.columns && PayableColumn in partners.columns) ==>
      s.receivable == 0 && s.payable == 0
  {
    if ReceivableColumn in partners.columns && PayableColumn in partners.columns then
      PartnerSummary(partners, Sum(partners.rows, PartnerReceivable), Sum(partners.rows, PartnerPayable))
    else
      PartnerSummary(partners, 0, 0)
  }

  /** The weekly lodging total plus the lodging outside the window is the
      full revenue of calcular_saldos. */
  lemma WeeklyLodgingPlusRestIsRevenue(reservations: Table<Reservation>, partners: Table<Partner>,
                                       owners: Table<Owner>, today: int)
    requires HasWeeklyColumns(reservations)
    requires ReceivableColumn in partners.columns && PayableColumn in partners.columns
    ensures WeeklyTotals(reservations, partners, owners, today).lodging
            + Sum(OutsideWeek(reservations.rows, today), Lodging)
            == ComputeBalances(reservations, partners).revenue
  {
    SumSplit(reservations.rows, Lodging,
             (r: Reservation) => InWeek(r, today), (r: Reservation) => !InWeek(r, today));
  }

  /** With non-negative amounts the weekly lodging never exceeds the revenue. */
  lemma WeeklyLodgingAtMostRevenue(reservations: Table<Reservation>, partners: Table<Partner>,
                                   owners: Table<Owner>, today: int)
    requires HasWeeklyColumns(reservations)
    requires ReceivableColumn in partners.columns && PayableColumn in partners.columns
    requires forall i :: 0 <= i < |reservations.rows| ==> reservations.rows[i].lodging >= 0
    ensures 0 <= WeeklyTotals(reservations, partners, owners, today).lodging
              <= ComputeBalances(reservations, partners).revenue
  {
    WeeklyLodgingPlusRestIsRevenue(reservations, partners, owners, today);
    var week := WeeklyTotals(reservations, partners, owners, today).week;
    forall x | x in week ensures x.lodging >= 0 {
      var i :| 0 <= i < |reservations.rows| && reservations.rows[i] == x;
    }
    SumNonNegative(week);
    forall x | x in OutsideWeek(reservations.rows, today) ensures x.lodging >= 0 {
      assert multiset(OutsideWeek(reservations.rows, today))[x] > 0;
      var i :| 0 <= i < |reservations.rows| && reservations.rows[i] == x;
    }
    SumNonNegative(OutsideWeek(reservations.rows, today));
  }

  lemma {:induction false} SumNonNegative(rows: seq<Reservation>)
    requires forall x :: x in rows ==> x.lodging >= 0
    ensures Sum(rows, Lodging) >= 0
  {
    if rows != [] {
      SumNonNegative(rows[1..]);
    }
  }

  /** The owners and partners figures of the weekly report do not depend on
      the date: they are not restricted to the week. */
  lemma WeeklyPayablesIgnoreDate(reservations: Table<Reservation>, partners: Table<Partner>,
                                 owners: Table<Owner>, today1: int, today2: int)
    requires HasWeeklyColumns(reservations)
    ensures WeeklyTotals(reservations, partners, owners, today1).ownerPayable
            == WeeklyTotals(reservations, partners, owners, today2).ownerPayable
    ensures WeeklyTotals(reservations, partners, owners, today1).partnerReceivable
            == WeeklyTotals(reservations, partners, owners, today2).partnerReceivable
  {
  }

  /** On tables whose blank amount cells hold 0, the column guards of the
      weekly report never change its figures: they are the full column sums. */
  lemma WeeklyGuardsAgreeWithSums(reservations: Table<Reservation>, partners: Table<Partner>,
                                  owners: Table<Owner>, today: int)
    requires HasWeeklyColumns(reservations)
    requires PartnersWellFormed(partners) && OwnersWellFormed(owners)
    ensures WeeklyTotals(reservations, partners, owners, today).ownerPayable == Sum(owners.rows, OwnerPayable)
    ensures WeeklyTotals(reservations, partners, owners, today).partnerReceivable
            == Sum(partners.rows, PartnerReceivable)
  {
    if PayableColumn !in owners.columns {
      SumOfZeros(owners.rows, OwnerPayable);
    }
    if ReceivableColumn !in partners.columns {
      SumOfZeros(partners.rows, PartnerReceivable);
    }
  }

  /** Adding a reservation (adicionar_reserva) extends the weekly subset by that
      reservation exactly when its check-in lies in the window, and the weekly
      lodging total by its amount. */
  lemma WeekAfterAddReservation(reservations: Table<Reservation>, partners: Table<Partner>,
                                owners: Table<Owner>, row: Reservation, today: int)
    requires HasWeeklyColumns(reservations)
    ensures HasWeeklyColumns(Append(reservations, row, ReservationColumns))
    ensures WeeklyTotals(Append(reservations, row, ReservationColumns), partners, owners, today).week
            == WeeklyTotals(reservations, partners, owners, today).week + (if InWeek(row, today) then [row] else [])
    ensures WeeklyTotals(Append(reservations, row, ReservationColumns), partners, owners, today).lodging
            == WeeklyTotals(reservations, partners, owners, today).lodging + (if InWeek(row, today) then row.lodging else 0)
  {
    var inWeek := (r: Reservation) => InWeek(r, today);
    FilterConcat(reservations.rows, [row], inWeek);
    var before := Filter(reservations.rows, inWeek);
    var added := Filter([row], inWeek);
    assert added == if InWeek(row, today) then [row] else [];
    SumConcat(before, added, Lodging);
  }

  /** Adding a reservation to a table that had no lodging column: the older
      rows' lodging cells are blank, so the weekly lodging total is only the new
      reservation's amount when it is in the window, and 0 otherwise. */
  lemma WeekLodgingAfterAddToTableWithoutLodging(reservations: Table<Reservation>, partners: Table<Partner>,
                                                 owners: Table<Owner>, row: Reservation, today: int)
    requires ReservationsWellFormed(reservations) && LodgingColumn !in reservations.columns
    ensures HasWeeklyColumns(Append(reservations, row, ReservationColumns))
    ensures WeeklyTotals(Append(reservations, row, ReservationColumns), partners, owners, today).lodging
            == if InWeek(row, today) then row.lodging else 0
  {
    var inWeek := (r: Reservation) => InWeek(r, today);
    FilterConcat(reservations.rows, [row], inWeek);
    var before := Filter(reservations.rows, inWeek);
    var added := Filter([row], inWeek);
    assert added == if InWeek(row, today) then [row] else [];
    SumConcat(before, added, Lodging);
    SumOfFilteredZeros(reservations.rows, Lodging, inWeek);
  }

  /** Adding a partner (adicionar_parceiro) makes both report columns present,
      so the report totals become the old column sums plus the new amounts. */
  lemma PartnerReportAfterAdd(partners: Table<Partner>, p: Partner)
    requires PartnersWellFormed(partners)
    ensures PartnerReport(Append(partners, p, PartnerColumns)).receivable
            == Sum(partners.rows, PartnerReceivable) + p.receivable
    ensures PartnerReport(Append(partners, p, PartnerColumns)).payable
            == Sum(partners.rows, PartnerPayable) + p.payable
  {
    SumConcat(partners.rows, [p], PartnerReceivable);
    SumConcat(partners.rows, [p], PartnerPayable);
    if ReceivableColumn !in partners.columns {
      SumOfZeros(partners.rows, PartnerReceivable);
    }
    if PayableColumn !in partners.columns {
      SumOfZeros(partners.rows, PartnerPayable);
    }
  }

  /** Updating a partner (atualizar_parceiro) swaps that row's amounts in the
      report totals and leaves the other rows' contributions as they were. */
  lemma PartnerReportAfterUpdate(partners: Table<Partner>, id: nat, p: Partner)
    requires PartnersWellFormed(partners)
    requires id < |partners.rows|
    ensures PartnerReport(Overwrite(partners, id, p, PartnerColumns)).receivable
            == Sum(partners.rows, PartnerReceivable) - partners.rows[id].receivable + p.receivable
    ensures PartnerReport(Overwrite(partners, id, p, PartnerColumns)).payable
            == Sum(partners.rows, PartnerPayable) - partners.rows[id].payable + p.payable
  {
    SumUpdate(partners.rows, id, p, PartnerReceivable);
    SumUpdate(partners.rows, id, p, PartnerPayable);
    if ReceivableColumn !in partners.columns {
      SumOfZeros(partners.rows, PartnerReceivable);
    }
    if PayableColumn !in partners.columns {
      SumOfZeros(partners.rows, PartnerPayable);
    }
  }

  /** The weekly example: with today at day 10, a check-in on day 3 (seven
      days before) is in the window and one on day 2 (eight days before) is not. */
  lemma WeekWindowExample(a: Reservation, b: Reservation)
    requires a.checkIn == 3 && b.checkIn == 2
    ensures WeeklyTotals(Table(ReservationColumns, [a, b]), Table({}, []), Table({}, []), 10).week == [a]
    ensures WeeklyTotals(Table(ReservationColumns, [a, b]), Table({}, []), Table({}, []), 10).lodging == a.lodging
    ensures WeeklyTotals(Table(ReservationColumns, [a, b]), Table({}, []), Table({}, []), 10).occupiedUnits == 1
  {
    assert [a, b][1..] == [b];
    assert Week([a, b], 10) == [a];
    assert Sum([a], Lodging) == a.lodging;
    assert UnitsOf([a]) == {a.unit};
  }

  /** An empty partner table reports 0 for both totals. */
  lemma EmptyPartnerReport(columns: set<string>)
    ensures PartnerReport(Table(columns, [])).receivable == 0
    ensures PartnerReport(Table(columns, [])).payable == 0
  {
  }
}
