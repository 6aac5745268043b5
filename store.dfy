/** The record store of the reservation dashboard: three independent tables
    (reservations, partners, owners), each loaded from and rewritten to its own
    spreadsheet file. A row's identifier is its position in the table.

    Dates are day numbers and money amounts are integers (cents). An amount
    cell of a column the table does not have is blank; a column sum skips
    blanks, so such a cell is held as 0 (see ReservationsWellFormed,
    PartnersWellFormed and OwnersWellFormed). */
module Store {

  datatype Reservation = Reservation(
    guest: string,
    checkIn: int,
    checkOut: int,
    unit: int,
    lodging: int,
    condominium: string,
    block: string,
    address: string)

  datatype Partner = Partner(name: string, receivable: int, payable: int)

  /** `payable` is the optional 'A pagar' column of the owners sheet; no
      owner operation writes it. */
  datatype Owner = Owner(fullName: string, email: string, phone: string, document: string, payable: int)

  // Column headers, verbatim as the spreadsheets name them.
  const GuestColumn := "Nome do hóspede"
  const CheckInColumn := "Data de entrada"
  const CheckOutColumn := "Data de saída"
  const UnitColumn := "Número do apartamento"
  const LodgingColumn := "Valor da hospedagem"
  const CondominiumColumn := "Nome do Condomínio"
  const BlockColumn := "Bloco"
  const AddressColumn := "Endereço"
  const PartnerColumn := "Parceiro"
  const ReceivableColumn := "A receber"
  const PayableColumn := "A pagar"
  const FullNameColumn := "Nome Completo"
  const EmailColumn := "Email"
  const PhoneColumn := "Telefone"
  const DocumentColumn := "Documento"

  /** The columns written by atualizar_reserva and adicionar_reserva. */
  const ReservationColumns: set<string> :=
    {GuestColumn, CheckInColumn, CheckOutColumn, UnitColumn, LodgingColumn,
     CondominiumColumn, BlockColumn, AddressColumn}
  /** The columns written by atualizar_parceiro and adicionar_parceiro. */
  const PartnerColumns: set<string> := {PartnerColumn, ReceivableColumn, PayableColumn}
  /** The columns written by atualizar_proprietario and adicionar_proprietario. */
  const OwnerColumns: set<string> := {FullNameColumn, EmailColumn, PhoneColumn, DocumentColumn}

  /** A table: the set of column headers and the rows in positional order. */
  datatype Table<R> = Table(columns: set<string>, rows: seq<R>)

  /** What reading a spreadsheet file can give. */
  datatype LoadOutcome<R> = Parsed(table: Table<R>) | FileNotFound | ReadFailed

  /** load_data: a parsed file gives its table; a missing or unreadable file
      gives an empty table with no columns, never an error. */
  function Load<R>(outcome: LoadOutcome<R>): (t: Table<R>)
    ensures outcome.Parsed? ==> t == outcome.table
    ensures !outcome.Parsed? ==> t.rows == [] && t.columns == {}
  {
    match outcome
    case Parsed(table) => table
    case _ => Table({}, [])
  }

  /** Appending a row (with a fresh positional index) adds the written columns. */
  function Append<R>(t: Table<R>, row: R, written: set<string>): (r: Table<R>)
    ensures |r.rows| == |t.rows| + 1
    ensures r.rows[|t.rows|] == row
    ensures r.rows[..|t.rows|] == t.rows
    ensures r.columns == t.columns + written
  {
    Table(t.columns + written, t.rows + [row])
  }

  /** Setting cells of row `id` in place; any written column the table lacked
      is added (blank in every other row). */
  function Overwrite<R>(t: Table<R>, id: nat, row: R, written: set<string>): (r: Table<R>)
    requires id < |t.rows|
    ensures |r.rows| == |t.rows|
    ensures r.rows[id] == row
    ensures forall i :: 0 <= i < |t.rows| && i != id ==> r.rows[i] == t.rows[i]
    ensures r.columns == t.columns + written
  {
    Table(t.columns + written, t.rows[id := row])
  }

  /** Lodging cells of a reservations table without that column are blank. */
  ghost predicate ReservationsWellFormed(t: Table<Reservation>)
  {
    LodgingColumn !in t.columns ==> forall i :: 0 <= i < |t.rows| ==> t.rows[i].lodging == 0
  }

  /** Amount cells of a missing partner column are blank. */
  ghost predicate PartnersWellFormed(t: Table<Partner>)
  {
    && (ReceivableColumn !in t.columns ==> forall i :: 0 <= i < |t.rows| ==> t.rows[i].receivable == 0)
    && (PayableColumn !in t.columns ==> forall i :: 0 <= i < |t.rows| ==> t.rows[i].payable == 0)
  }

  /** 'A pagar' cells of an owners table without that column are blank. */
  ghost predicate OwnersWellFormed(t: Table<Owner>)
  {
    PayableColumn !in t.columns ==> forall i :: 0 <= i < |t.rows| ==> t.rows[i].payable == 0
  }

  /** The in-memory store (GerenciamentoReservas). Each `...Writes` ghost field
      is the list of tables written to that table's file by this store, in
      order; the file's content is the last one. */
  class ReservationManager {
    var reservations: Table<Reservation>
    var partners: Table<Partner>
    var owners: Table<Owner>

    ghost var reservationWrites: seq<Table<Reservation>>
    ghost var partnerWrites: seq<Table<Partner>>
    ghost var ownerWrites: seq<Table<Owner>>

    /** Amount cells are consistent with the columns, and every file this store
        has written holds exactly the current in-memory table. */
    ghost predicate Valid()
      reads this
    {
      && ReservationsWellFormed(reservations)
      && PartnersWellFormed(partners)
      && OwnersWellFormed(owners)
      && (reservationWrites != [] ==> reservationWrites[|reservationWrites| - 1] == reservations)
      && (partnerWrites != [] ==> partnerWrites[|partnerWrites| - 1] == partners)
      && (ownerWrites != [] ==> ownerWrites[|ownerWrites| - 1] == owners)
    }

    /** __init__: load the three files; nothing is written. */
    constructor (r: LoadOutcome<Reservation>, p: LoadOutcome<Partner>, o: LoadOutcome<Owner>)
      requires r.Parsed? ==> ReservationsWellFormed(r.table)
      requires p.Parsed? ==> PartnersWellFormed(p.table)
      requires o.Parsed? ==> OwnersWellFormed(o.table)
      ensures Valid()
      ensures reservations == Load(r) && partners == Load(p) && owners == Load(o)
      ensures reservationWrites == [] && partnerWrites == [] && ownerWrites == []
    {
      reservations := Load(r);
      partners := Load(p);
      owners := Load(o);
      reservationWrites, partnerWrites, ownerWrites := [], [], [];
    }

    /** atualizar_reserva: when `id` is a row identifier, set that row's eight
        fields and rewrite the reservations file; otherwise change nothing. */
    method UpdateReservation(id: int, guest: string, checkIn: int, checkOut: int, unit: int,
                             lodging: int, condominium: string, block: string, address: string)
      requires Valid()
      modifies this
      ensures Valid()
      ensures 0 <= id < |old(reservations.rows)| ==>
        && reservations == Overwrite(old(reservations), id,
             Reservation(guest, checkIn, checkOut, unit, lodging, condominium, block, address),
             ReservationColumns)
        && reservationWrites == old(reservationWrites) + [reservations]
      ensures !(0 <= id < |old(reservations.rows)|) ==>
        reservations == old(reservations) && reservationWrites == old(reservationWrites)
      ensures partners == old(partners) && owners == old(owners)
      ensures partnerWrites == old(partnerWrites) && ownerWrites == old(ownerWrites)
    {
      if 0 <= id < |reservations.rows| {
        var row := Reservation(guest, checkIn, checkOut, unit, lodging, condominium, block, address);
        reservations := Overwrite(reservations, id, row, ReservationColumns);
        reservationWrites := reservationWrites + [reservations];
      }
    }

    /** adicionar_reserva: append a row and rewrite the reservations file. */
    method AddReservation(guest: string, checkIn: int, checkOut: int, unit: int,
                          lodging: int, condominium: string, block: string, address: string)
      requires Valid()
      modifies this
      ensures Valid()
      ensures reservations == Append(old(reservations),
                Reservation(guest, checkIn, checkOut, unit, lodging, condominium, block, address),
                ReservationColumns)
      ensures reservationWrites == old(reservationWrites) + [reservations]
      ensures partners == old(partners) && owners == old(owners)
      ensures partnerWrites == old(partnerWrites) && ownerWrites == old(ownerWrites)
    {
      var row := Reservation(guest, checkIn, checkOut, unit, lodging, condominium, block, address);
      reservations := Append(reservations, row, ReservationColumns);
      reservationWrites := reservationWrites + [reservations];
    }

    /** atualizar_parceiro: when `id` is a row identifier, set that partner's
        three fields and rewrite the partners file; otherwise change nothing. */
    method UpdatePartner(id: int, name: string, receivable: int, payable: int)
      requires Valid()
      modifies this
      ensures Valid()
      ensures 0 <= id < |old(partners.rows)| ==>
        && partners == Overwrite(old(partners), id, Partner(name, receivable, payable), PartnerColumns)
        && partnerWrites == old(partnerWrites) + [partners]
      ensures !(0 <= id < |old(partners.rows)|) ==>
        partners == old(partners) && partnerWrites == old(partnerWrites)
      ensures reservations == old(reservations) && owners == old(owners)
      ensures reservationWrites == old(reservationWrites) && ownerWrites == old(ownerWrites)
    {
      if 0 <= id < |partners.rows| {
        partners := Overwrite(partners, id, Partner(name, receivable, payable), PartnerColumns);
        partnerWrites := partnerWrites + [partners];
      }
    }

    /** adicionar_parceiro: append a partner and rewrite the partners file. */
    method AddPartner(name: string, receivable: int, payable: int)
      requires Valid()
      modifies this
      ensures Valid()
      ensures partners == Append(old(partners), Partner(name, receivable, payable), PartnerColumns)
      ensures partnerWrites == old(partnerWrites) + [partners]
      ensures reservations == old(reservations) && owners == old(owners)
      ensures reservationWrites == old(reservationWrites) && ownerWrites == old(ownerWrites)
    {
      partners := Append(partners, Partner(name, receivable, payable), PartnerColumns);
      partnerWrites := partnerWrites + [partners];
    }

    /** atualizar_proprietario: when `id` is a row identifier, set that owner's
        four fields (its 'A pagar' cell is kept) and rewrite the owners file;
        otherwise change nothing. */
    method UpdateOwner(id: int, fullName: string, email: string, phone: string, document: string)
      requires Valid()
      modifies this
      ensures Valid()
      ensures 0 <= id < |old(owners.rows)| ==>
        && owners == Overwrite(old(owners), id,
             Owner(fullName, email, phone, document, old(owners.rows[id].payable)), OwnerColumns)
        && ownerWrites == old(ownerWrites) + [owners]
      ensures !(0 <= id < |old(owners.rows)|) ==>
        owners == old(owners) && ownerWrites == old(ownerWrites)
      ensures reservations == old(reservations) && partners == old(partners)
      ensures reservationWrites == old(reservationWrites) && partnerWrites == old(partnerWrites)
    {
      if 0 <= id < |owners.rows| {
        var row := owners.rows[id].(fullName := fullName, email := email, phone := phone, document := document);
        owners := Overwrite(owners, id, row, OwnerColumns);
        ownerWrites := ownerWrites + [owners];
      }
    }

    /** adicionar_proprietario: append an owner (its 'A pagar' cell blank) and
        rewrite the owners file. */
    method AddOwner(fullName: string, email: string, phone: string, document: string)
      requires Valid()
      modifies this
      ensures Valid()
      ensures owners == Append(old(owners), Owner(fullName, email, phone, document, 0), OwnerColumns)
      ensures ownerWrites == old(ownerWrites) + [owners]
      ensures reservations == old(reservations) && partners == old(partners)
      ensures reservationWrites == old(reservationWrites) && partnerWrites == old(partnerWrites)
    {
      owners := Append(owners, Owner(fullName, email, phone, document, 0), OwnerColumns);
      ownerWrites := ownerWrites + [owners];
    }
  }
}
