/** The drain controller's side of the handshake. */
module MachineDrain {
  import opened Model

  /** A downstream node: whether it is cordoned, and the options it was drained with since it was last uncordoned. */
  datatype NodeState = NodeState(cordoned: bool, evicted: set<DrainOptions>)

  /** How an update of the annotations turns out: it is saved; the secret cannot be read; or it was read and changed in
      hand, but not saved. */
  datatype Write = Saved | Unread | Unsaved

  /** How the calls to the downstream cluster and to the API server turn out during one handler step: the client,
      cordon, eviction and uncordon, the update of the annotations, and the deferred update that records the error. */
  datatype IO = IO(
    client: bool, cordon: bool, evict: bool, unCordon: bool, write: Write, record: bool, message: string)

  /** What a step leaves: the annotations that are stored, the copy of them in hand, whether that copy is out of date,
      the node and whether there is an error. */
  datatype Work = Work(stored: Annotations, hand: Annotations, stale: bool, node: NodeState, failed: bool)

  datatype Step = Step(annotations: Annotations, node: NodeState, failed: bool)

  predicate Registered(nodeRef: Option<string>) {
    nodeRef.Some? && nodeRef.value != ""
  }

  /** Every named hook carries the value of the request. */
  predicate Acknowledged(a: Annotations, hooks: seq<string>, request: Mark) {
    forall h :: h in hooks && h != "" ==> h in a.hooks && a.hooks[h] == request
  }

  function Left(a: Annotations, node: NodeState, failed: bool): Work {
    Work(a, a, false, node, failed)
  }

  /** The annotations are to become b. */
  function Updated(a: Annotations, b: Annotations, node: NodeState, write: Write): Work {
    match write
    case Saved => Work(b, b, true, node, false)
    case Unread => Work(a, a, false, node, true)
    case Unsaved => Work(a, b, false, node, true)
  }

  function DrainNode(a: Annotations, nodeRef: Option<string>, node: NodeState, io: IO): Work {
    if !a.drain.Options? then Left(a, node, true) else
    var options := a.drain.options;
    if Registered(nodeRef) && !(io.client && io.cordon) then Left(a, node, true) else
    var cordoned := if Registered(nodeRef) then node.(cordoned := true) else node;
    if options.preDrainHooks != [] && a.preDrain != a.drain then Updated(a, a.(preDrain := a.drain), cordoned, io.write)
    else if !Acknowledged(a, options.preDrainHooks, a.drain) then Left(a, cordoned, false)
    else if options.enabled && Registered(nodeRef) && !io.evict then Left(a, cordoned, true)
    else
      var drained := if options.enabled && Registered(nodeRef)
                     then cordoned.(evicted := cordoned.evicted + {options}) else cordoned;
      Updated(a, a.(drainDone := a.drain), drained, io.write)
  }

  /** The annotations once the handshake is over. */
  function Cleaned(a: Annotations, options: DrainOptions): Annotations {
    a.(preDrain := Blank, postDrain := Blank, drain := Blank, drainDone := Blank, unCordon := Blank,
       hooks := a.hooks - (set h | h in options.preDrainHooks) - (set h | h in options.postDrainHooks))
  }

  function UndrainNode(a: Annotations, nodeRef: Option<string>, node: NodeState, io: IO): Work {
    if !Registered(nodeRef) then Left(a, node, false) else
    if !a.drain.Options? then Left(a, node, true) else
    var options := a.drain.options;
    if options.postDrainHooks != [] && a.postDrain != a.drain then Updated(a, a.(postDrain := a.drain), node, io.write)
    else if !Acknowledged(a, options.postDrainHooks, a.drain) then Left(a, node, false)
    else if !(io.client && io.unCordon) then Left(a, node, true)
    else Updated(a, Cleaned(a, options), NodeState(false, {}), io.write)
  }

  /** The deferred update of the drain error. It stores the copy in hand, so it carries along what could not be saved
      before; a copy that was saved is out of date and cannot be stored again. */
  function Recorded(work: Work, io: IO): Step {
    var error := if work.failed then Some(io.message) else None;
    if work.hand.drainError == error || work.stale || !io.record then Step(work.stored, work.node, work.failed)
    else Step(work.hand.(drainError := error), work.node, work.failed)
  }

  /** One call of the handler, with the deferred record of its error. */
  function Handle(a: Annotations, nodeRef: Option<string>, node: NodeState, io: IO): Step {
    Recorded(
      if a.drain != Blank && a.drainDone != a.drain then DrainNode(a, nodeRef, node, io)
      else if a.unCordon != Blank then UndrainNode(a, nodeRef, node, io)
      else Left(a, node, false), io)
  }

  /** The handler with the secret's stored annotations, its copy in hand and the downstream node it works on. */
  class Handler {
    const nodeRef: Option<string>
    var annotations: Annotations
    var hand: Annotations
    var stale: bool
    var node: NodeState

    constructor (nodeRef: Option<string>, annotations: Annotations, node: NodeState)
      ensures this.nodeRef == nodeRef && this.annotations == annotations && this.node == node
    {
      this.nodeRef := nodeRef;
      this.annotations := annotations;
      this.hand := annotations;
      this.stale := false;
      this.node := node;
    }

    /** Reads the annotations anew, changes the copy and saves it. */
    method Update(changed: Annotations, io: IO) returns (failed: bool)
      modifies this`annotations, this`hand, this`stale
      ensures Work(annotations, hand, stale, node, failed) == Updated(old(annotations), changed, node, io.write)
    {
      stale := false;
      if io.write.Unread? {
        hand := annotations;
        return true;
      }
      hand := changed;
      if io.write.Unsaved? {
        return true;
      }
      annotations := hand;
      stale := true;
      return false;
    }

    method Drain(io: IO) returns (failed: bool)
      requires hand == annotations && !stale
      modifies this
      ensures Work(annotations, hand, stale, node, failed) == DrainNode(old(annotations), nodeRef, old(node), io)
    {
      var request := annotations.drain;
      if !request.Options? {
        return true;
      }
      if Registered(nodeRef) {
        if !io.client || !io.cordon {
          return true;
        }
        node := node.(cordoned := true);
      }
      if |request.options.preDrainHooks| > 0 {
        if annotations.preDrain != request {
          failed := Update(annotations.(preDrain := request), io);
          return;
        } else if !Acknowledged(annotations, request.options.preDrainHooks, request) {
          return false;
        }
      }
      if request.options.enabled && Registered(nodeRef) {
        if !io.evict {
          return true;
        }
        node := node.(evicted := node.evicted + {request.options});
      }
      failed := Update(annotations.(drainDone := request), io);
    }

    method Undrain(io: IO) returns (failed: bool)
      requires hand == annotations && !stale
      modifies this
      ensures Work(annotations, hand, stale, node, failed) == UndrainNode(old(annotations), nodeRef, old(node), io)
    {
      if !Registered(nodeRef) {
        return false;
      }
      var request := annotations.drain;
      if !request.Options? {
        return true;
      }
      if |request.options.postDrainHooks| > 0 {
        if annotations.postDrain != request {
          failed := Update(annotations.(postDrain := request), io);
          return;
        } else if !Acknowledged(annotations, request.options.postDrainHooks, request) {
          return false;
        }
      }
      if !io.client || !io.unCordon {
        return true;
      }
      node := NodeState(false, {});
      failed := Update(Cleaned(annotations, request.options), io);
    }

    method OnChange(io: IO) returns (failed: bool)
      modifies this
      ensures Step(annotations, node, failed) == Handle(old(annotations), nodeRef, old(node), io)
    {
      hand, stale := annotations, false;
      failed := false;
      if annotations.drain != Blank && annotations.drainDone != annotations.drain {
        failed := Drain(io);
      } else if annotations.unCordon != Blank {
        failed := Undrain(io);
      }
      if (!failed && hand.drainError == None) || (failed && hand.drainError == Some(io.message)) {
        return;
      }
      hand := hand.(drainError := if failed then Some(io.message) else None);
      if !stale && io.record {
        annotations := hand;
      }
    }
  }
}
