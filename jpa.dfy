/**
 * The JPA plugin of the Play framework: the static controller that builds
 * the entity-manager factory at start-up, closes it at shut-down, and
 * brackets each request with a transaction bound to the request's context.
 *
 * The static state (the factory, Play's configuration, the data source of
 * the DB plugin and the current task's context slot) is the state of one
 * object of class JPA; the persistence library is the Hibernate module.
 */
module Jpa {
  import opened Wrappers
  import opened JavaPlatform
  import opened Hibernate

  /** The driver for which the dialect is built in. */
  const HsqlDriver := "org.hsqldb.jdbcDriver"
  const HsqlDialect := "org.hibernate.dialect.HSQLDialect"

  /** The two halves of the message of the unsupported-operation error. */
  const UnknownDialectPrefix := "I do not know which hibernate dialect to use with "
  const UnknownDialectSuffix := ", use the property jpa.dialect in config file"

  /** The exceptions that escape the controller's operations. */
  datatype JavaException =
    | UnsupportedOperationException(message: string)
    | NullPointerException

  /**
   * isEnabled: the `jpa` property is "enabled"; a missing property reads
   * as "disabled".
   */
  function IsEnabled(configuration: Properties): (r: bool)
    ensures r <==> "jpa" in configuration && configuration["jpa"] == "enabled"
  {
    GetProperty(configuration, "jpa", "disabled") == "enabled"
  }

  /**
   * getDefaultDialect: the HSQL driver has its dialect built in; any other
   * driver takes the `jpa.dialect` property and fails without one.
   */
  function DefaultDialect(driver: string, configuration: Properties): (r: Result<string, JavaException>)
    ensures driver == HsqlDriver ==> r == Success(HsqlDialect)
    ensures driver != HsqlDriver ==> (r.Success? <==> "jpa.dialect" in configuration)
    ensures driver != HsqlDriver && r.Success? ==> r.value == configuration["jpa.dialect"]
    ensures r.Failure? ==> r.error.UnsupportedOperationException?
    ensures r.Failure? && r.error.UnsupportedOperationException? ==>
      var msg := r.error.message;
      |msg| == |UnknownDialectPrefix| + |driver| + |UnknownDialectSuffix| &&
      msg[|UnknownDialectPrefix|..|UnknownDialectPrefix| + |driver|] == driver
  {
    if driver == HsqlDriver then Success(HsqlDialect)
    else if "jpa.dialect" in configuration then Success(configuration["jpa.dialect"])
    else Failure(UnsupportedOperationException(UnknownDialectPrefix + driver + UnknownDialectSuffix))
  }

  /** The classes of `classes` that carry @Entity, in list order. */
  function Entities(classes: seq<ClassInfo>): (r: seq<ClassInfo>)
    ensures |r| <= |classes|
    ensures forall i :: 0 <= i < |r| ==> r[i].hasEntityAnnotation
  {
    if classes == [] then []
    else if classes[0].hasEntityAnnotation then [classes[0]] + Entities(classes[1..])
    else Entities(classes[1..])
  }

  /** Filtering a concatenation filters each part, keeping their order. */
  lemma {:induction false} EntitiesAppend(a: seq<ClassInfo>, b: seq<ClassInfo>)
    ensures Entities(a + b) == Entities(a) + Entities(b)
  {
    if a != [] {
      assert (a + b)[0] == a[0] && (a + b)[1..] == a[1..] + b;
      EntitiesAppend(a[1..], b);
    } else {
      assert a + b == b;
    }
  }

  /** A class is registered if and only if it is in the list and carries @Entity. */
  lemma {:induction false} EntitiesExactly(classes: seq<ClassInfo>, c: ClassInfo)
    ensures c in Entities(classes) <==> c in classes && c.hasEntityAnnotation
  {
    if classes != [] {
      EntitiesExactly(classes[1..], c);
      assert classes == [classes[0]] + classes[1..];
    }
  }

  /** `s` is `t` with some elements left out, the rest kept in their order. */
  ghost predicate Subsequence<T>(s: seq<T>, t: seq<T>)
    decreases |t|
  {
    if s == [] then true
    else if t == [] then false
    else (s[0] == t[0] && Subsequence(s[1..], t[1..])) || Subsequence(s, t[1..])
  }

  /** The registered classes appear in the order of the class list. */
  lemma {:induction false} EntitiesInOrder(classes: seq<ClassInfo>)
    ensures Subsequence(Entities(classes), classes)
  {
    if classes != [] {
      EntitiesInOrder(classes[1..]);
      if !classes[0].hasEntityAnnotation {
        SubsequenceSkip(Entities(classes[1..]), classes[1..], classes[0]);
      }
    }
  }

  /** Putting an element in front of `t` keeps every subsequence of `t` one of the longer list. */
  lemma {:induction false} SubsequenceSkip<T>(s: seq<T>, t: seq<T>, x: T)
    requires Subsequence(s, t)
    ensures Subsequence(s, [x] + t)
  {
  }

  /** The per-task context: the entity manager of the open transaction and its read-only flag. */
  datatype JPAContext = JPAContext(manager: EntityManager, readonly: bool)

  /** The three properties that init sets on the library configuration. */
  function FactoryProperties(configuration: Properties, dialect: string): (r: Properties)
    ensures r.Keys == {"hibernate.hbm2ddl.auto", "hibernate.dialect", "javax.persistence.transaction"}
    ensures r["hibernate.dialect"] == dialect && r["javax.persistence.transaction"] == "RESOURCE_LOCAL"
    ensures "jpa.ddl" in configuration ==> r["hibernate.hbm2ddl.auto"] == configuration["jpa.ddl"]
    ensures "jpa.ddl" !in configuration ==> r["hibernate.hbm2ddl.auto"] == "update"
  {
    map[]["hibernate.hbm2ddl.auto" := GetProperty(configuration, "jpa.ddl", "update")]
         ["hibernate.dialect" := dialect]
         ["javax.persistence.transaction" := "RESOURCE_LOCAL"]
  }

  class JPA {
    /** JPA.entityManagerFactory; None stands for null. */
    var entityManagerFactory: Option<EntityManagerFactory>
    /** Play.configuration, which init writes on one path. */
    var configuration: Properties
    /** DB.datasource, owned by the DB plugin and only read here. */
    var dataSource: Option<DataSource>
    /** The current task's JPAContext slot. */
    var context: Option<JPAContext>
    /** The number under which the factory will create its next entity manager. */
    var nextManager: EntityManager
    /** The transaction and factory calls made on the persistence library so far. */
    ghost var log: seq<Event>

    /**
     * Every call on the library so far was allowed where it happened,
     * every manager named in the log was created before, and the bound
     * context's transaction is open.
     */
    ghost predicate Valid()
      reads this
    {
      && WellFormed(log)
      && (forall m :: m in Begun(log) ==> m < nextManager)
      && (context.Some? ==> context.value.manager in Pending(log))
    }

    /** The state after class loading: no factory, no context, nothing called. */
    constructor (configuration: Properties, dataSource: Option<DataSource>)
      ensures Valid()
      ensures this.configuration == configuration && this.dataSource == dataSource
      ensures entityManagerFactory == None && context == None && log == [] && nextManager == 0
    {
      entityManagerFactory := None;
      this.configuration := configuration;
      this.dataSource := dataSource;
      context := None;
      nextManager := 0;
      log := [];
    }

    /**
     * The effect of init(classes, p): with no data source, JPA is switched
     * off and nothing else changes. Otherwise a missing `db.driver` makes
     * the dialect lookup dereference null; a driver is resolved to a
     * dialect, and either the lookup's error is thrown with nothing changed,
     * or a factory is built from the data source, the schema mode, the
     * dialect and exactly the @Entity classes.
     */
    twostate predicate InitWithEffect(classes: seq<ClassInfo>, p: Properties, new outcome: Outcome<JavaException>)
      reads this
    {
      && dataSource == old(dataSource)
      && context == old(context) && nextManager == old(nextManager) && log == old(log)
      && (old(dataSource).None? ==>
            && configuration == old(configuration)["jpa" := "disabled"]
            && entityManagerFactory == old(entityManagerFactory)
            && outcome == Pass)
      && (old(dataSource).Some? && "db.driver" !in p ==>
            && configuration == old(configuration)
            && entityManagerFactory == old(entityManagerFactory)
            && outcome == Fail(NullPointerException))
      && (old(dataSource).Some? && "db.driver" in p ==>
            var dialect := DefaultDialect(p["db.driver"], old(configuration));
            && configuration == old(configuration)
            && (dialect.Failure? ==>
                  outcome == Fail(dialect.error) && entityManagerFactory == old(entityManagerFactory))
            && (dialect.Success? ==>
                  && outcome == Pass
                  && entityManagerFactory == Some(EntityManagerFactory(
                       old(dataSource).value,
                       FactoryProperties(old(configuration), dialect.value),
                       Entities(classes)))))
    }

    /** init(): builds the factory from all classes when JPA is enabled and no factory exists. */
    method Init(allClasses: seq<ClassInfo>) returns (outcome: Outcome<JavaException>)
      requires Valid()
      modifies this
      ensures Valid()
      ensures !(old(IsEnabled(configuration)) && old(entityManagerFactory).None?) ==>
        unchanged(this) && outcome == Pass
      ensures old(IsEnabled(configuration)) && old(entityManagerFactory).None? ==>
        InitWithEffect(allClasses, old(configuration), outcome)
    {
      outcome := Pass;
      if GetProperty(configuration, "jpa", "disabled") == "enabled" && entityManagerFactory == None {
        outcome := InitWith(allClasses, configuration);
      }
    }

    /** init(classes, p): the guards and the registration of the @Entity classes. */
    method InitWith(classes: seq<ClassInfo>, p: Properties) returns (outcome: Outcome<JavaException>)
      requires Valid()
      modifies this
      ensures Valid()
      ensures InitWithEffect(classes, p, outcome)
    {
      if dataSource == None {
        configuration := configuration["jpa" := "disabled"];
        return Pass;
      }
      var cfg := new Ejb3Configuration();
      cfg.SetDataSource(dataSource.value);
      cfg.SetProperty("hibernate.hbm2ddl.auto", GetProperty(configuration, "jpa.ddl", "update"));
      if "db.driver" !in p {
        return Fail(NullPointerException);
      }
      var dialect := DefaultDialect(p["db.driver"], configuration);
      if dialect.Failure? {
        return Fail(dialect.error);
      }
      cfg.SetProperty("hibernate.dialect", dialect.value);
      cfg.SetProperty("javax.persistence.transaction", "RESOURCE_LOCAL");
      for i := 0 to |classes|
        modifies cfg
        invariant cfg.annotatedClasses == Entities(classes[..i])
        invariant cfg.dataSource == dataSource
        invariant cfg.properties == FactoryProperties(configuration, dialect.value)
      {
        if classes[i].hasEntityAnnotation {
          cfg.AddAnnotatedClass(classes[i]);
        }
        assert classes[..i + 1] == classes[..i] + [classes[i]];
        EntitiesAppend(classes[..i], [classes[i]]);
      }
      assert classes[..|classes|] == classes;
      entityManagerFactory := Some(cfg.BuildEntityManagerFactory());
      outcome := Pass;
    }

    /** shutdown(): closes the factory if there is one; afterwards there is none. */
    method Shutdown()
      requires Valid()
      modifies this
      ensures Valid()
      ensures entityManagerFactory == None
      ensures old(entityManagerFactory).Some? ==> log == old(log) + [CloseFactory(old(entityManagerFactory).value)]
      ensures old(entityManagerFactory).None? ==> log == old(log)
      ensures configuration == old(configuration) && dataSource == old(dataSource)
      ensures context == old(context) && nextManager == old(nextManager)
    {
      if entityManagerFactory != None {
        log := log + [CloseFactory(entityManagerFactory.value)];
        entityManagerFactory := None;
      }
    }

    /**
     * startTx(readonly): when JPA is enabled, creates a new entity manager,
     * begins its transaction and binds a context that records `readonly`.
     * With JPA enabled and no factory, the factory field is dereferenced
     * while null and nothing changes.
     */
    method StartTx(readonly: bool) returns (outcome: Outcome<JavaException>)
      requires Valid()
      modifies this
      ensures Valid()
      ensures entityManagerFactory == old(entityManagerFactory)
      ensures configuration == old(configuration) && dataSource == old(dataSource)
      ensures outcome == (if IsEnabled(configuration) && entityManagerFactory.None?
                          then Fail(NullPointerException) else Pass)
      ensures outcome.Fail? || !IsEnabled(configuration) ==>
        context == old(context) && nextManager == old(nextManager) && log == old(log)
      ensures IsEnabled(configuration) && entityManagerFactory.Some? ==>
        && old(nextManager) !in Begun(old(log))
        && context == Some(JPAContext(old(nextManager), readonly))
        && log == old(log) + [Begin(old(nextManager))]
        && nextManager == old(nextManager) + 1
    {
      if !IsEnabled(configuration) {
        return Pass;
      }
      if entityManagerFactory == None {
        return Fail(NullPointerException);
      }
      var manager := nextManager;
      TransactionsBegunAndEndedOnce(log, manager);
      nextManager := nextManager + 1;
      log := log + [Begin(manager)];
      context := Some(JPAContext(manager, readonly));
      outcome := Pass;
    }

    /**
     * closeTx(rollback): when JPA is enabled and a context is bound, rolls
     * the transaction back if the context is read-only or `rollback` is
     * set, commits it otherwise, and clears the context.
     */
    method CloseTx(rollback: bool)
      requires Valid()
      modifies this
      ensures Valid()
      ensures entityManagerFactory == old(entityManagerFactory)
      ensures configuration == old(configuration) && dataSource == old(dataSource)
      ensures nextManager == old(nextManager)
      ensures !IsEnabled(configuration) || old(context).None? ==>
        context == old(context) && log == old(log)
      ensures IsEnabled(configuration) && old(context).Some? ==>
        var c := old(context).value;
        && context == None
        && c.manager in Pending(old(log))
        && (c.readonly || rollback ==> log == old(log) + [Rollback(c.manager)])
        && (!c.readonly && !rollback ==> log == old(log) + [Commit(c.manager)])
    {
      if !IsEnabled(configuration) || context == None {
        return;
      }
      var manager := context.value.manager;
      if context.value.readonly || rollback {
        log := log + [Rollback(manager)];
      } else {
        log := log + [Commit(manager)];
      }
      context := None;
    }
  }
}
