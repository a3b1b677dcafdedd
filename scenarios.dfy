/**
 * Clients of the JPA plugin as the framework drives it, checked against
 * the contracts of class JPA alone.
 */
module JpaScenarios {
  import opened Wrappers
  import opened JavaPlatform
  import opened Hibernate
  import opened Jpa

  /** A request that only reads ends in a rollback, whatever it asks for. */
  method ReadOnlyRequestRollsBack(classes: seq<ClassInfo>, ds: DataSource)
  {
    var conf := map["jpa" := "enabled", "db.driver" := HsqlDriver];
    var jpa := new JPA(conf, Some(ds));
    var outcome := jpa.Init(classes);
    assert outcome == Pass;
    assert jpa.entityManagerFactory.Some?;
    assert jpa.entityManagerFactory.value.annotatedClasses == Entities(classes);
    assert jpa.entityManagerFactory.value.properties["hibernate.dialect"] == HsqlDialect;
    assert jpa.entityManagerFactory.value.properties["hibernate.hbm2ddl.auto"] == "update";
    outcome := jpa.StartTx(true);
    jpa.CloseTx(false);
    assert jpa.log == [Begin(0), Rollback(0)];
    assert jpa.context == None;
  }

  /** A built factory for a driver with an explicit dialect property. */
  method EnabledWithDialect(classes: seq<ClassInfo>, ds: DataSource) returns (jpa: JPA)
    ensures fresh(jpa) && jpa.Valid()
    ensures IsEnabled(jpa.configuration) && jpa.entityManagerFactory.Some?
    ensures jpa.context == None && jpa.log == [] && jpa.nextManager == 0
  {
    var conf := map["jpa" := "enabled", "db.driver" := "org.postgresql.Driver",
                    "jpa.dialect" := "org.hibernate.dialect.PostgreSQLDialect"];
    assert "org.postgresql.Driver" != HsqlDriver;
    jpa := new JPA(conf, Some(ds));
    var outcome := jpa.Init(classes);
  }

  /** A writing request that ends normally commits. */
  method WritingRequestCommits(classes: seq<ClassInfo>, ds: DataSource)
  {
    var jpa := EnabledWithDialect(classes, ds);
    var outcome := jpa.StartTx(false);
    jpa.CloseTx(false);
    assert jpa.log == [Begin(0), Commit(0)] && jpa.context == None;
  }

  /** A writing request that asks for a rollback rolls back. */
  method WritingRequestRollsBackOnRequest(classes: seq<ClassInfo>, ds: DataSource)
  {
    var jpa := EnabledWithDialect(classes, ds);
    var outcome := jpa.StartTx(false);
    jpa.CloseTx(true);
    assert jpa.log == [Begin(0), Rollback(0)] && jpa.context == None;
  }

  /** Closing with no bound context does nothing. */
  method CloseWithoutContext(classes: seq<ClassInfo>, ds: DataSource)
  {
    var jpa := EnabledWithDialect(classes, ds);
    jpa.CloseTx(false);
    assert jpa.log == [] && jpa.context == None;
  }

  /** Without a data source JPA switches itself off, and transactions become no-ops. */
  method MissingDataSourceDisables(classes: seq<ClassInfo>)
  {
    var jpa := new JPA(map["jpa" := "enabled"], None);
    var outcome := jpa.Init(classes);
    assert outcome == Pass && !IsEnabled(jpa.configuration);
    assert jpa.entityManagerFactory == None;
    outcome := jpa.StartTx(false);
    jpa.CloseTx(false);
    assert jpa.log == [] && jpa.context == None;
  }

  /** An unknown driver without a dialect property makes init throw and build nothing. */
  method UnknownDriverFails(classes: seq<ClassInfo>, ds: DataSource)
  {
    var jpa := new JPA(map["jpa" := "enabled", "db.driver" := "com.unknown.Driver"], Some(ds));
    var outcome := jpa.Init(classes);
    assert outcome.Fail? && outcome.error.UnsupportedOperationException?;
    assert jpa.entityManagerFactory == None && IsEnabled(jpa.configuration);
    outcome := jpa.StartTx(false);
    assert outcome == Fail(NullPointerException) && jpa.log == [] && jpa.context == None;
  }

  /** Without a `db.driver` property, init dereferences null and builds nothing. */
  method MissingDriverFails(classes: seq<ClassInfo>, ds: DataSource)
  {
    var jpa := new JPA(map["jpa" := "enabled"], Some(ds));
    var outcome := jpa.Init(classes);
    assert outcome == Fail(NullPointerException) && jpa.entityManagerFactory == None;
  }

  /** A second shutdown finds no factory and changes nothing. */
  method ShutdownTwice(classes: seq<ClassInfo>, ds: DataSource)
  {
    var jpa := new JPA(map["jpa" := "enabled", "db.driver" := HsqlDriver], Some(ds));
    var outcome := jpa.Init(classes);
    var factory := jpa.entityManagerFactory.value;
    jpa.Shutdown();
    assert jpa.log == [CloseFactory(factory)];
    jpa.Shutdown();
    assert jpa.log == [CloseFactory(factory)] && jpa.entityManagerFactory == None;
    outcome := jpa.StartTx(false);
    assert outcome == Fail(NullPointerException);
    outcome := jpa.Init(classes);
    assert jpa.entityManagerFactory.Some?;
  }
}
