/**
 * Abstract stand-ins for the persistence library the JPA plugin drives
 * (Hibernate's Ejb3Configuration, EntityManagerFactory and EntityManager).
 * Only what the plugin hands to the library and the order of the
 * transaction calls it makes are modelled; none of the library's own
 * behaviour is.
 */
module Hibernate {
  import opened Wrappers
  import opened JavaPlatform

  /**
   * A built entity-manager factory, recorded as the configuration it was
   * built from: its data source, its properties and its annotated classes.
   */
  datatype EntityManagerFactory =
    EntityManagerFactory(dataSource: DataSource, properties: Properties, annotatedClasses: seq<ClassInfo>)

  /** An entity manager, identified by the number under which it was created. */
  type EntityManager = nat

  /** The calls the plugin makes on the library that have an observable effect. */
  datatype Event =
    | Begin(manager: EntityManager)
    | Commit(manager: EntityManager)
    | Rollback(manager: EntityManager)
    | CloseFactory(factory: EntityManagerFactory)

  /** The builder the plugin fills in before asking for a factory. */
  class Ejb3Configuration {
    var dataSource: Option<DataSource>
    var properties: Properties
    var annotatedClasses: seq<ClassInfo>

    constructor ()
      ensures dataSource == None && properties == map[] && annotatedClasses == []
    {
      dataSource := None;
      properties := map[];
      annotatedClasses := [];
    }

    method SetDataSource(ds: DataSource)
      modifies this
      ensures dataSource == Some(ds)
      ensures properties == old(properties) && annotatedClasses == old(annotatedClasses)
    {
      dataSource := Some(ds);
    }

    method SetProperty(key: string, value: string)
      modifies this
      ensures properties == old(properties)[key := value]
      ensures dataSource == old(dataSource) && annotatedClasses == old(annotatedClasses)
    {
      properties := properties[key := value];
    }

    method AddAnnotatedClass(c: ClassInfo)
      modifies this
      ensures annotatedClasses == old(annotatedClasses) + [c]
      ensures dataSource == old(dataSource) && properties == old(properties)
    {
      annotatedClasses := annotatedClasses + [c];
    }

    /** The factory records exactly what the builder held when it was built. */
    function BuildEntityManagerFactory(): EntityManagerFactory
      reads this
      requires dataSource.Some?
    {
      EntityManagerFactory(dataSource.value, properties, annotatedClasses)
    }
  }

  // ---------------------------------------------------------------------
  // The event log and the discipline a well-behaved client keeps on it
  // ---------------------------------------------------------------------

  /** The entity managers whose transaction has been begun. */
  ghost function Begun(log: seq<Event>): set<EntityManager>
  {
    if log == [] then {}
    else Begun(log[..|log| - 1]) + (if log[|log| - 1].Begin? then {log[|log| - 1].manager} else {})
  }

  /** The entity managers whose transaction has been committed or rolled back. */
  ghost function Ended(log: seq<Event>): set<EntityManager>
  {
    if log == [] then {}
    else
      var e := log[|log| - 1];
      Ended(log[..|log| - 1]) + (if e.Commit? || e.Rollback? then {e.manager} else {})
  }

  /** Transactions that are open: begun and not yet ended. */
  ghost function Pending(log: seq<Event>): set<EntityManager>
  {
    Begun(log) - Ended(log)
  }

  /** Whether event `e` may follow `log`: a begin on a new manager, an end on an open one. */
  ghost predicate Allowed(log: seq<Event>, e: Event)
  {
    match e
    case Begin(m) => m !in Begun(log)
    case Commit(m) => m in Pending(log)
    case Rollback(m) => m in Pending(log)
    case CloseFactory(_) => true
  }

  /** Every event of the log was allowed where it happened. */
  ghost predicate WellFormed(log: seq<Event>)
  {
    log == [] || (WellFormed(log[..|log| - 1]) && Allowed(log[..|log| - 1], log[|log| - 1]))
  }

  /** How many times the transaction of `m` was begun. */
  ghost function BeginCount(log: seq<Event>, m: EntityManager): nat
  {
    if log == [] then 0
    else BeginCount(log[..|log| - 1], m) + (if log[|log| - 1] == Begin(m) then 1 else 0)
  }

  /** How many times the transaction of `m` was committed or rolled back. */
  ghost function EndCount(log: seq<Event>, m: EntityManager): nat
  {
    if log == [] then 0
    else
      var e := log[|log| - 1];
      EndCount(log[..|log| - 1], m) + (if e == Commit(m) || e == Rollback(m) then 1 else 0)
  }

  /**
   * In a well-formed log every transaction is begun at most once, ended at
   * most once, and only ended after it was begun.
   */
  lemma {:induction false} TransactionsBegunAndEndedOnce(log: seq<Event>, m: EntityManager)
    requires WellFormed(log)
    ensures Ended(log) <= Begun(log)
    ensures BeginCount(log, m) == (if m in Begun(log) then 1 else 0)
    ensures EndCount(log, m) == (if m in Ended(log) then 1 else 0)
  {
    if log != [] {
      TransactionsBegunAndEndedOnce(log[..|log| - 1], m);
    }
  }
}
