/** `BillsStorageService` of src/services/billsStorageService.ts: the list of
    recurring bills kept under one storage key. The stored value is a field
    of the class; reading it back (`getBills`) yields the empty list when
    nothing is stored or the stored text does not parse. Dates are day
    numbers; the clock, the generated id and the calendar steps of
    `formatNextPaymentDate` are parameters. */
module BillsStorage {
  import opened Wrappers
  import opened Seqs
  import opened Formatters

  datatype RecurringBill = RecurringBill(
    id: string,
    receiverName: string,
    description: string,
    amount: real,
    frequency: string,
    paymentMethodId: string,
    nextPaymentDate: int,
    lastPaidDate: Option<int>,
    createdDate: int,
    isActive: bool)

  /** What the bill form submits. */
  datatype RecurringBillData = RecurringBillData(
    receiverName: string,
    description: string,
    amount: real,
    paymentDateTime: int,
    paymentMethodId: string,
    frequency: string)

  /** The stored entry: absent, present but unreadable, or a bill list. */
  datatype StoredBills = Nothing | Unreadable | Stored(bills: seq<RecurringBill>)

  /** The index of the first bill with the given id (`findIndex`), or -1. */
  predicate FirstIndex(bills: seq<RecurringBill>, billId: string, k: int) {
    if k == -1 then forall i :: 0 <= i < |bills| ==> bills[i].id != billId
    else 0 <= k < |bills| && bills[k].id == billId && forall i :: 0 <= i < k ==> bills[i].id != billId
  }

  /** The bill after a payment on day `now`. */
  function Paid(bill: RecurringBill, now: int, addMonth: int -> int, addYear: int -> int): RecurringBill {
    bill.(lastPaidDate := Some(now),
          nextPaymentDate := NextPaymentDate(Some(now), bill.frequency, now, addMonth, addYear))
  }

  /** `bills.findIndex(bill => bill.id === billId)`. */
  method FindIndex(bills: seq<RecurringBill>, billId: string) returns (billIndex: int)
    ensures FirstIndex(bills, billId, billIndex)
  {
    var i := 0;
    while i < |bills|
      invariant 0 <= i <= |bills|
      invariant forall j :: 0 <= j < i ==> bills[j].id != billId
    {
      if bills[i].id == billId {
        return i;
      }
      i := i + 1;
    }
    return -1;
  }

  class BillsStore {
    var stored: StoredBills

    constructor(stored: StoredBills)
      ensures this.stored == stored
    {
      this.stored := stored;
    }

    /** `getBills()` (billsStorageService.ts:27-43). */
    function GetBills(): (bills: seq<RecurringBill>)
      reads this
      ensures stored.Stored? ==> bills == stored.bills
      ensures !stored.Stored? ==> bills == []
    {
      match stored
      case Stored(bills) => bills
      case _ => []
    }

    /** `saveBill(billData)` (billsStorageService.ts:7-25): a new active,
      never-paid bill due on the requested date is appended and the list is
      written back. */
    method SaveBill(billData: RecurringBillData, id: string, today: int) returns (newBill: RecurringBill)
      modifies this
      ensures GetBills() == old(GetBills()) + [newBill]
      ensures newBill == RecurringBill(id, billData.receiverName, billData.description, billData.amount,
                                       billData.frequency, billData.paymentMethodId, billData.paymentDateTime,
                                       None, today, true)
    {
      var bills := GetBills();
      newBill := RecurringBill(id, billData.receiverName, billData.description, billData.amount,
                               billData.frequency, billData.paymentMethodId, billData.paymentDateTime,
                               None, today, true);
      bills := bills + [newBill];
      stored := Stored(bills);
    }

    /** `updateBillPayment(billId)` (billsStorageService.ts:45-57): the first
      bill with that id is marked paid today and its next date advanced by
      its frequency; with no such bill nothing is written. */
    method UpdateBillPayment(billId: string, now: int, addMonth: int -> int, addYear: int -> int)
      modifies this
      ensures FirstIndex(old(GetBills()), billId, -1) ==> stored == old(stored)
      ensures forall k :: FirstIndex(old(GetBills()), billId, k) && k >= 0 ==>
        GetBills() == old(GetBills())[k := Paid(old(GetBills())[k], now, addMonth, addYear)]
    {
      var bills := GetBills();
      var billIndex := FindIndex(bills, billId);
      if billIndex != -1 {
        var bill := bills[billIndex];
        bills := bills[billIndex := Paid(bill, now, addMonth, addYear)];
        stored := Stored(bills);
      }
    }

    /** `deleteBill(billId)` (billsStorageService.ts:59-63): every bill with
      that id is dropped, the rest kept in order, and the list written back. */
    method DeleteBill(billId: string)
      modifies this
      ensures GetBills() == Filter(old(GetBills()), (b: RecurringBill) => b.id != billId)
      ensures forall i :: 0 <= i < |GetBills()| ==> GetBills()[i].id != billId
      ensures IsSubsequence(GetBills(), old(GetBills()))
    {
      var bills := GetBills();
      stored := Stored(Filter(bills, (b: RecurringBill) => b.id != billId));
    }
  }
}
