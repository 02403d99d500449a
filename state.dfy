/** The ownership cell of an actor's state (src/actors/state.rs).

    The shared `Arc<RwLock<S>>` is a heap `Cell` holding the value and a flag
    that says whether a strong owner still exists. `State` (strong) and
    `WeakState` (weak) are handles to a cell; two handles denote the same
    state exactly when they hold the same cell. */
module ActorState {

  /** The shared allocation behind `State` and `WeakState`. */
  class Cell<S> {
    /** The value behind the read-write lock. */
    var value: S
    /** Whether a strong owner of the cell still exists. */
    var alive: bool

    constructor (init: S)
      ensures value == init && alive
    {
      value := init;
      alive := true;
    }
  }

  /** `State<S>`: the strong, owning handle. */
  datatype State<S> = State(cell: Cell<S>)

  /** `WeakState<S>`: a non-owning handle. */
  datatype WeakState<S> = WeakState(cell: Cell<S>)

  /** The outcome of `State::upgrade`: a strong handle, or the panic `upgrade`
      raises when the owner is gone. */
  datatype Upgraded<S> = Upgraded(state: State<S>) | UpgradePanic(message: string)

  /** `State::default()`: a fresh, live cell holding `S::default()`, which the
      caller passes as `init`. */
  method Default<S>(init: S) returns (st: State<S>)
    ensures fresh(st.cell)
    ensures st.cell.alive && st.cell.value == init
  {
    var c := new Cell(init);
    st := State(c);
  }

  /** `State::downgrade`: a weak handle to the owner's cell. */
  function Downgrade<S>(st: State<S>): (w: WeakState<S>)
    ensures w.cell == st.cell
  {
    WeakState(st.cell)
  }

  /** `State::upgrade`: a strong handle to the same cell while the owner is
      alive; once it is gone, the panic "Upgrade state failed!" and no handle. */
  function Upgrade<S>(w: WeakState<S>): (r: Upgraded<S>)
    reads w.cell
    ensures r.Upgraded? <==> w.cell.alive
    ensures r.Upgraded? ==> r.state.cell == w.cell
    ensures r.UpgradePanic? ==> r.message == "Upgrade state failed!"
  {
    if w.cell.alive then Upgraded(State(w.cell)) else UpgradePanic("Upgrade state failed!")
  }

  /** `WeakState::clone`: another weak handle to the same cell. */
  function Clone<S>(w: WeakState<S>): (c: WeakState<S>)
    ensures c.cell == w.cell
  {
    WeakState(w.cell)
  }

  /** The last strong owner is dropped: the cell is no longer alive and its
      value is untouched. */
  method DropOwner<S>(st: State<S>)
    modifies st.cell`alive
    ensures !st.cell.alive
  {
    st.cell.alive := false;
  }

  /** While the owner is alive, downgrading then upgrading gives back a handle
      to the owner's own cell; after it is gone, the upgrade panics. */
  lemma UpgradeDowngrade<S>(st: State<S>)
    ensures st.cell.alive ==> Upgrade(Downgrade(st)) == Upgraded(st)
    ensures !st.cell.alive ==> Upgrade(Downgrade(st)).UpgradePanic?
  {
  }

  /** A clone resolves exactly as the original does. */
  lemma UpgradeClone<S>(w: WeakState<S>)
    ensures Upgrade(Clone(w)) == Upgrade(w)
  {
  }

  /** The life cycle of one cell: a fresh owner, a weak handle and its clone
      resolve to the owner's cell, and a read through the upgraded handle sees
      the stored value; that handle is released before the owner, so dropping
      the owner drops the last strong handle and every later upgrade panics. */
  method OwnershipLifecycle<S>(init: S) returns (seen: S, after: Upgraded<S>)
    ensures seen == init
    ensures after == UpgradePanic("Upgrade state failed!")
  {
    var owner := Default(init);
    var weak := Downgrade(owner);
    var copy := Clone(weak);
    {
      var up := Upgrade(copy);
      assert up.state == owner;
      seen := up.state.cell.value;
    }
    DropOwner(owner);
    after := Upgrade(weak);
  }
}
