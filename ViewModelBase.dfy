/**
  ViewModelBase: the state every view-model carries. Property-change
  notification with change detection, the one-shot Dispose pattern, and the
  LogMessage event through which a view-model hands log events to whoever
  subscribed.
 */
module ViewModels {
  import opened Wrappers
  import opened Exceptions
  import BLL

  /** One raise of a property-change event: the instance PropertyChanged
      event or the static PropertyChangedEvent, with the property name. */
  datatype PropertyNotice = InstanceChanged(name: string) | StaticChanged(name: string)

  /** One raise of the LogMessage event: the sender and the event arguments. */
  datatype Raised = Raised(sender: object, args: BLL.LogEvent)

  /** The notices one SetProperty call raises: none when the value is equal to
      the stored one, otherwise the two raises of OnPropertyChanged. */
  function ChangeNotices<T(==)>(storage: T, value: T, name: string): (ns: seq<PropertyNotice>)
    ensures storage == value <==> ns == []
    ensures ns != [] ==> ns == [InstanceChanged(name), StaticChanged(name)]
  {
    if storage == value then [] else [InstanceChanged(name), StaticChanged(name)]
  }

  /** Setting a property to the value it just received raises nothing more:
      two SetProperty calls with one value notify as one call does. */
  lemma SetPropertyTwiceNotifiesOnce<T>(storage: T, value: T, name: string)
    ensures ChangeNotices(storage, value, name) + ChangeNotices(value, value, name) == ChangeNotices(storage, value, name)
  {
    assert ChangeNotices(value, value, name) == [];
  }

  class ViewModelBase {
    var disposed: bool               // _disposed
    var notices: seq<PropertyNotice> // the property-change events raised, in order
    var logSubscribed: bool          // LogMessage != null
    var raised: seq<Raised>          // the LogMessage events raised to subscribers, in order

    constructor ()
      ensures !disposed && notices == [] && !logSubscribed && raised == []
    {
      disposed := false;
      notices := [];
      logSubscribed := false;
      raised := [];
    }

    /** The default Initialize does nothing. */
    method Initialize()
      ensures unchanged(this)
    {
    }

    /** The default PrepareShutdown does nothing. */
    method PrepareShutdown()
      ensures unchanged(this)
    {
    }

    /** LogMessage += handler. */
    method SubscribeLog()
      modifies this`logSubscribed
      ensures logSubscribed
    {
      logSubscribed := true;
    }

    /** Log(sender, e): raises LogMessage when it has subscribers. */
    method LogFrom(sender: object, e: BLL.LogEvent)
      modifies this`raised
      ensures raised == old(raised) + (if logSubscribed then [Raised(sender, e)] else [])
    {
      if logSubscribed {
        raised := raised + [Raised(sender, e)];
      }
    }

    /** Log(e): raises LogMessage with this view-model as the sender. */
    method LogArgs(e: BLL.LogEvent)
      modifies this`raised
      ensures raised == old(raised) + (if logSubscribed then [Raised(this, e)] else [])
    {
      LogFrom(this, e);
    }

    /** Log(message, level, error): an event for the default logger name (""),
        at level Debug unless another is given. */
    method Log(message: BLL.Producer, level: BLL.Level := BLL.Level.Debug, error: Option<Exn> := None)
      modifies this`raised
      ensures raised == old(raised) + (if logSubscribed then [Raised(this, BLL.LogEvent("", level, message, error))] else [])
    {
      LogFrom(this, BLL.LogEvent("", level, message, error));
    }

    /** OnPropertyChanged: the instance event, then the static event, with one name. */
    method OnPropertyChanged(name: string)
      modifies this`notices
      ensures notices == old(notices) + [InstanceChanged(name), StaticChanged(name)]
    {
      notices := notices + [InstanceChanged(name)];
      notices := notices + [StaticChanged(name)];
    }

    /** SetProperty(ref storage, value, name): `stored` is the new content of
        the storage; the result tells whether it changed. */
    method SetProperty<T(==)>(storage: T, value: T, name: string) returns (changed: bool, stored: T)
      modifies this`notices
      ensures changed <==> storage != value
      ensures stored == value
      ensures notices == old(notices) + ChangeNotices(storage, value, name)
    {
      if storage == value {
        return false, storage;
      }
      stored := value;
      OnPropertyChanged(name);
      changed := true;
    }

    /** Dispose(): Dispose(true). */
    method Dispose()
      modifies this`disposed
      ensures disposed
    {
      DisposeCore(true);
    }

    /** Dispose(bool): sets the disposed flag once; later calls change nothing. */
    method DisposeCore(disposing: bool)
      modifies this`disposed
      ensures disposed
      ensures old(disposed) ==> unchanged(this)
    {
      if !disposed {
        disposed := true;
      }
    }
  }
}
