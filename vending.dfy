/**
 * The State-pattern vending machine. Each Java state class (NoMoneyState,
 * HasMoneyState, DispensingState) becomes one handler function over the closed
 * set of states; the machine itself is a class whose fields `currentState` and
 * `hasProduct` its event methods update in place. Console output is returned as
 * the message of each event instead of being printed.
 */
module VendingMachineState {

  datatype MachineState = NoMoney | HasMoney | Dispensing

  datatype Event = InsertMoney | SelectProduct | Dispense

  /** What one event does: the next state, the next inventory flag and the message shown. */
  datatype Outcome = Outcome(state: MachineState, hasProduct: bool, message: string)

  const MoneyAccepted := "Money accepted!"
  const InsertMoneyFirst := "Please insert money first"
  const AlreadyHaveMoney := "Already have money inserted"
  const ProductSelected := "Product selected"
  const OutOfProducts := "Sorry, out of products"
  const SelectProductFirst := "Please select a product first"
  const PleaseWait := "Please wait, dispensing product"
  const DispensingProduct := "Dispensing product..."

  /** NoMoneyState: only inserting money moves the machine; inventory is never touched. */
  function NoMoneyHandle(e: Event, hasProduct: bool): (o: Outcome)
    ensures o.hasProduct == hasProduct
    ensures o.state == HasMoney <==> e == InsertMoney
    ensures o.state != HasMoney ==> o.state == NoMoney && o.message == InsertMoneyFirst
  {
    match e
    case InsertMoney => Outcome(HasMoney, hasProduct, MoneyAccepted)
    case SelectProduct => Outcome(NoMoney, hasProduct, InsertMoneyFirst)
    case Dispense => Outcome(NoMoney, hasProduct, InsertMoneyFirst)
  }

  /**
   * HasMoneyState: selecting a product dispenses when there is stock and
   * otherwise returns to NoMoney (the money is not kept); inventory is never touched.
   */
  function HasMoneyHandle(e: Event, hasProduct: bool): (o: Outcome)
    ensures o.hasProduct == hasProduct
    ensures o.state == Dispensing <==> e == SelectProduct && hasProduct
    ensures o.state == NoMoney <==> e == SelectProduct && !hasProduct
    ensures e == InsertMoney ==> o.message == AlreadyHaveMoney
    ensures e == Dispense ==> o.message == SelectProductFirst
    ensures e == SelectProduct ==> o.message == if hasProduct then ProductSelected else OutOfProducts
  {
    match e
    case InsertMoney => Outcome(HasMoney, hasProduct, AlreadyHaveMoney)
    case SelectProduct =>
      if hasProduct then Outcome(Dispensing, hasProduct, ProductSelected)
      else Outcome(NoMoney, hasProduct, OutOfProducts)
    case Dispense => Outcome(HasMoney, hasProduct, SelectProductFirst)
  }

  /** DispensingState: only `dispense` acts; it empties the machine and returns to NoMoney. */
  function DispensingHandle(e: Event, hasProduct: bool): (o: Outcome)
    ensures e == Dispense ==> o.state == NoMoney && !o.hasProduct
    ensures e != Dispense ==> o == Outcome(Dispensing, hasProduct, PleaseWait)
  {
    match e
    case InsertMoney => Outcome(Dispensing, hasProduct, PleaseWait)
    case SelectProduct => Outcome(Dispensing, hasProduct, PleaseWait)
    case Dispense => Outcome(NoMoney, false, DispensingProduct)
  }

  /**
   * The machine's dispatch: the current state's handler for the event. No
   * event restocks the machine, and none starts dispensing without stock.
   */
  function Handle(s: MachineState, e: Event, hasProduct: bool): (o: Outcome)
    ensures o.hasProduct ==> hasProduct
    ensures Consistent(s, hasProduct) ==> Consistent(o.state, o.hasProduct)
  {
    match s
    case NoMoney => NoMoneyHandle(e, hasProduct)
    case HasMoney => HasMoneyHandle(e, hasProduct)
    case Dispensing => DispensingHandle(e, hasProduct)
  }

  /** The one event each state is waiting for. */
  predicate IsExpected(s: MachineState, e: Event) {
    match s
    case NoMoney => e == InsertMoney
    case HasMoney => e == SelectProduct
    case Dispensing => e == Dispense
  }

  /**
   * No spontaneous transition: the state changes exactly when the state's
   * expected event arrives; every other pair is an informational no-op that
   * leaves both the state and the inventory as they were.
   */
  lemma StateChangesOnlyOnExpectedEvent(s: MachineState, e: Event, hasProduct: bool)
    ensures Handle(s, e, hasProduct).state != s <==> IsExpected(s, e)
    ensures !IsExpected(s, e) ==> Handle(s, e, hasProduct).hasProduct == hasProduct
  {
  }

  /**
   * Inventory monotonicity for one event: `hasProduct` changes only by a
   * `dispense` in Dispensing, and then only from true to false.
   */
  lemma InventoryOnlyDecreases(s: MachineState, e: Event, hasProduct: bool)
    ensures Handle(s, e, hasProduct).hasProduct != hasProduct
        <==> s == Dispensing && e == Dispense && hasProduct
  {
  }

  /** The machine is only ever dispensing while it still holds a product. */
  predicate Consistent(s: MachineState, hasProduct: bool) {
    s == Dispensing ==> hasProduct
  }

  /** The end of a run of events, with the message of every event in order. */
  datatype Trace = Trace(state: MachineState, hasProduct: bool, messages: seq<string>)

  function Run(s: MachineState, hasProduct: bool, events: seq<Event>): (t: Trace)
    ensures |t.messages| == |events|
    decreases |events|
  {
    if events == [] then Trace(s, hasProduct, [])
    else
      var o := Handle(s, events[0], hasProduct);
      var rest := Run(o.state, o.hasProduct, events[1..]);
      Trace(rest.state, rest.hasProduct, [o.message] + rest.messages)
  }

  /** How many products the messages report as handed out. */
  function DispensedCount(messages: seq<string>): nat {
    if messages == [] then 0
    else (if messages[0] == DispensingProduct then 1 else 0) + DispensedCount(messages[1..])
  }

  /** Every run keeps the machine consistent, and an empty machine stays empty. */
  lemma {:induction false} RunKeepsInvariants(s: MachineState, hasProduct: bool, events: seq<Event>)
    requires Consistent(s, hasProduct)
    ensures Consistent(Run(s, hasProduct, events).state, Run(s, hasProduct, events).hasProduct)
    ensures Run(s, hasProduct, events).hasProduct ==> hasProduct
    decreases |events|
  {
    if events != [] {
      var o := Handle(s, events[0], hasProduct);
      RunKeepsInvariants(o.state, o.hasProduct, events[1..]);
    }
  }

  /**
   * Conservation of stock: over any run from a consistent machine, the products
   * reported as dispensed plus the product still held equal the product held at
   * the start. In particular a machine with one product dispenses at most one.
   */
  lemma {:induction false} RunConservesStock(s: MachineState, hasProduct: bool, events: seq<Event>)
    requires Consistent(s, hasProduct)
    ensures DispensedCount(Run(s, hasProduct, events).messages)
              + (if Run(s, hasProduct, events).hasProduct then 1 else 0)
            == (if hasProduct then 1 else 0)
    decreases |events|
  {
    if events != [] {
      var o := Handle(s, events[0], hasProduct);
      var rest := Run(o.state, o.hasProduct, events[1..]);
      RunConservesStock(o.state, o.hasProduct, events[1..]);
      assert Run(s, hasProduct, events).messages == [o.message] + rest.messages;
      assert ([o.message] + rest.messages)[1..] == rest.messages;
    }
  }

  /** The vending machine object: its state and inventory are updated in place by each event. */
  class VendingMachine {
    var currentState: MachineState
    var hasProduct: bool

    ghost predicate Valid()
      reads this
    {
      Consistent(currentState, hasProduct)
    }

    /** A new machine waits for money and holds a product. */
    constructor ()
      ensures currentState == NoMoney && hasProduct
      ensures Valid()
    {
      currentState := NoMoney;
      hasProduct := true;
    }

    method SetState(s: MachineState)
      modifies this`currentState
      ensures currentState == s && hasProduct == old(hasProduct)
    {
      currentState := s;
    }

    method SetHasProduct(b: bool)
      modifies this`hasProduct
      ensures hasProduct == b && currentState == old(currentState)
    {
      hasProduct := b;
    }

    /**
     * The handlers of NoMoneyState, acting on this machine: `insertMoney` moves
     * it to HasMoney; the other two only answer, leaving the machine as it is.
     */
    method NoMoneyHandler(e: Event) returns (message: string)
      modifies this
      ensures message == NoMoneyHandle(e, old(hasProduct)).message
      ensures currentState == if e == Event.InsertMoney then HasMoney else old(currentState)
      ensures hasProduct == old(hasProduct)
    {
      match e
      case InsertMoney =>
        message := MoneyAccepted;
        SetState(HasMoney);
      case SelectProduct =>
        message := InsertMoneyFirst;
      case Dispense =>
        message := InsertMoneyFirst;
    }

    /**
     * The handlers of HasMoneyState, acting on this machine: only
     * `selectProduct` moves it, to the state the stock decides.
     */
    method HasMoneyHandler(e: Event) returns (message: string)
      modifies this
      ensures message == HasMoneyHandle(e, old(hasProduct)).message
      ensures currentState == if e == Event.SelectProduct then HasMoneyHandle(e, old(hasProduct)).state
                              else old(currentState)
      ensures hasProduct == old(hasProduct)
    {
      match e
      case InsertMoney =>
        message := AlreadyHaveMoney;
      case SelectProduct =>
        if hasProduct {
          message := ProductSelected;
          SetState(Dispensing);
        } else {
          message := OutOfProducts;
          SetState(NoMoney);
        }
      case Dispense =>
        message := SelectProductFirst;
    }

    /**
     * The handlers of DispensingState, acting on this machine: `dispense`
     * empties it and returns it to NoMoney; the other two only answer.
     */
    method DispensingHandler(e: Event) returns (message: string)
      modifies this
      ensures message == DispensingHandle(e, old(hasProduct)).message
      ensures e == Event.Dispense ==> currentState == NoMoney && !hasProduct
      ensures e != Event.Dispense ==> currentState == old(currentState) && hasProduct == old(hasProduct)
    {
      match e
      case InsertMoney =>
        message := PleaseWait;
      case SelectProduct =>
        message := PleaseWait;
      case Dispense =>
        message := DispensingProduct;
        SetHasProduct(false);
        SetState(NoMoney);
    }

    /** Hands the event to the current state's handler and does nothing else. */
    method Fire(e: Event) returns (message: string)
      modifies this
      ensures Outcome(currentState, hasProduct, message) == Handle(old(currentState), e, old(hasProduct))
      ensures old(Valid()) ==> Valid()
      ensures hasProduct ==> old(hasProduct)
    {
      match currentState
      case NoMoney => message := NoMoneyHandler(e);
      case HasMoney => message := HasMoneyHandler(e);
      case Dispensing => message := DispensingHandler(e);
    }

    method InsertMoney() returns (message: string)
      modifies this
      ensures Outcome(currentState, hasProduct, message) == Handle(old(currentState), Event.InsertMoney, old(hasProduct))
      ensures old(Valid()) ==> Valid()
      ensures hasProduct ==> old(hasProduct)
    {
      message := Fire(Event.InsertMoney);
    }

    method SelectProduct() returns (message: string)
      modifies this
      ensures Outcome(currentState, hasProduct, message) == Handle(old(currentState), Event.SelectProduct, old(hasProduct))
      ensures old(Valid()) ==> Valid()
      ensures hasProduct ==> old(hasProduct)
    {
      message := Fire(Event.SelectProduct);
    }

    method Dispense() returns (message: string)
      modifies this
      ensures Outcome(currentState, hasProduct, message) == Handle(old(currentState), Event.Dispense, old(hasProduct))
      ensures old(Valid()) ==> Valid()
      ensures hasProduct ==> old(hasProduct)
    {
      message := Fire(Event.Dispense);
    }
  }

  /**
   * The demo script: select without money, insert, select, dispense, then
   * insert and select on the now empty machine.
   */
  method VendingScenario() returns (messages: seq<string>, finalState: MachineState, finalHasProduct: bool)
    ensures messages == [InsertMoneyFirst, MoneyAccepted, ProductSelected, DispensingProduct,
                         MoneyAccepted, OutOfProducts]
    ensures finalState == NoMoney && !finalHasProduct
  {
    var machine := new VendingMachine();
    var m1 := machine.SelectProduct();
    var m2 := machine.InsertMoney();
    var m3 := machine.SelectProduct();
    var m4 := machine.Dispense();
    var m5 := machine.InsertMoney();
    var m6 := machine.SelectProduct();
    messages := [m1, m2, m3, m4, m5, m6];
    finalState, finalHasProduct := machine.currentState, machine.hasProduct;
  }

  /** Inserting money twice: the second coin is refused and the machine keeps waiting for a selection. */
  method DoubleInsertScenario() returns (messages: seq<string>, finalState: MachineState, finalHasProduct: bool)
    ensures messages == [MoneyAccepted, AlreadyHaveMoney]
    ensures finalState == HasMoney && finalHasProduct
  {
    var machine := new VendingMachine();
    var m1 := machine.InsertMoney();
    var m2 := machine.InsertMoney();
    messages := [m1, m2];
    finalState, finalHasProduct := machine.currentState, machine.hasProduct;
  }
}
