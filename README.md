# Play JPA plugin: lifecycle and transaction control

This project models the `JPA` controller of the Play framework
(`framework/src/play/db/jpa/JPA.java`) in Dafny and proves properties of the model.
The controller connects Play's lifecycle hooks to Hibernate:

- at start-up it builds an entity-manager factory from the `@Entity` classes;
- it resolves the Hibernate dialect from the JDBC driver name;
- around each request it begins a transaction, then commits it or rolls it back;
- at shut-down it closes the factory.

Modules:

- `Wrappers` (`wrappers.dfy`): `Option` (a Java reference that may be null),
  `Outcome` and `Result` (normal return or thrown exception).
- `JavaPlatform` (`platform.dfy`): the Java types the controller passes around.
  - `Properties` is a string map with `GetProperty(key, default)`.
  - `DataSource` is an opaque connection source.
  - `ClassInfo` is a class of the classpath with a flag for the `@Entity` annotation.
- `Hibernate` (`hibernate.dfy`): abstract stand-ins for the persistence library.
  - `Ejb3Configuration` is a builder holding a data source, properties and annotated classes.
  - `EntityManagerFactory` is a value that records what it was built from.
  - Entity managers are numbers.
  - A ghost log of `Begin`, `Commit`, `Rollback` and `CloseFactory` events stands for
    the calls made on the library. `WellFormed(log)` says that each begin is on a
    new manager and each end is on an open transaction.
- `Jpa` (`jpa.dfy`): the controller.
  - `IsEnabled` and `DefaultDialect` are functions of the configuration.
  - `JavaException` holds the two exceptions that escape the controller:
    the unsupported-operation error of the dialect lookup, and a null-pointer exception.
  - `Entities` is the `@Entity` filter of `init`.
  - Class `JPA` holds the static state: the factory field, `Play.configuration`,
    `DB.datasource`, the current task's `JPAContext` slot, a counter for new entity
    managers, and the event log. Its methods are `init()`, `init(classes, p)`,
    `shutdown`, `startTx` and `closeTx`. Its invariant `Valid()` says that the log is
    well formed, that every manager in it was created by the counter, and that the
    bound context's transaction is open.
- `JpaScenarios` (`scenarios.dfy`): client methods that drive the controller the way
  the framework does. They check these things from the contracts alone:
  - a read-only request rolls back;
  - a writing request commits, one that asks for a rollback rolls back, and a
    `closeTx` with no bound context does nothing;
  - a missing datasource switches transactions off;
  - an unknown driver without `jpa.dialect` makes `init` throw, after which
    `startTx` dereferences the null factory;
  - a missing `db.driver` makes `init` dereference null;
  - a second shutdown changes nothing, and `startTx` after shutdown dereferences
    the null factory.

The model follows the code in three places where a stricter design would behave
differently:

- with no datasource, `init(classes, p)` returns normally after setting `jpa` to
  `disabled`; it does not report an error;
- an unknown dialect throws out of `init` and leaves `jpa` enabled;
- `startTx` does not check for a bound context (JPA.java:81-88). The model binds the new context in place of the old one and leaves the old transaction open in the log. What `JPAContext.createContext` does with an old context is not modelled.

A failing commit or rollback is not modelled; see the line on exceptions under
"## Left out".

## Model

| member | source | states |
|---|---|---|
| `Jpa.IsEnabled` | framework/src/play/db/jpa/JPA.java:25-27 | true exactly when the `jpa` property is present and equal to `"enabled"`; a missing property reads as disabled |
| `Jpa.DefaultDialect` | framework/src/play/db/jpa/JPA.java:68-79 | the HSQL driver gives `org.hibernate.dialect.HSQLDialect` whatever `jpa.dialect` holds; any other driver succeeds iff `jpa.dialect` is set, and then returns that value; otherwise an unsupported-operation error whose message names the driver |
| `Jpa.Entities` | framework/src/play/db/jpa/JPA.java:47-52 | the registered classes are no more than the input classes and all carry `@Entity` |
| `Jpa.EntitiesAppend` | framework/src/play/db/jpa/JPA.java:47-52 | filtering a concatenation is the concatenation of the filtered parts, so registration keeps list order (this is the loop's step) |
| `Jpa.EntitiesExactly` | framework/src/play/db/jpa/JPA.java:47-49 | a class is registered iff it is in the list and carries `@Entity` |
| `Jpa.EntitiesInOrder` | framework/src/play/db/jpa/JPA.java:47-52 | the registered classes are a subsequence of the class list: they keep the list's order |
| `Jpa.FactoryProperties` | framework/src/play/db/jpa/JPA.java:37-39 | the factory gets exactly three properties: `hibernate.hbm2ddl.auto` is `jpa.ddl` (default `"update"`), `hibernate.dialect` is the resolved dialect, and `javax.persistence.transaction` is `RESOURCE_LOCAL` |
| `Jpa.JPA.constructor` | framework/src/play/db/jpa/JPA.java:16 | the initial static state has no factory, no bound context and no library calls |
| `Jpa.JPA.Init` | framework/src/play/db/jpa/JPA.java:18-23 | nothing changes and nothing is thrown when JPA is disabled or a factory exists; otherwise the effect, including what it throws, is that of `init(classes, configuration)` |
| `Jpa.JPA.InitWith` | framework/src/play/db/jpa/JPA.java:29-55 | with no datasource it sets `jpa` to `disabled` and keeps the factory. Otherwise there are three cases. If `db.driver` is missing, the dialect lookup dereferences null: it throws a null-pointer exception and changes nothing. If the dialect cannot be resolved, it throws that error and changes nothing. If it can, the factory is built from the datasource, `FactoryProperties` and exactly `Entities(classes)` in list order. The loop invariant says that the classes added so far are the filtered prefix. The context and the log are untouched, and `Valid()` is kept |
| `Jpa.JPA.Shutdown` | framework/src/play/db/jpa/JPA.java:57-62 | afterwards there is no factory. A close event is logged iff a factory was present, so a second call changes nothing |
| `Jpa.JPA.StartTx` | framework/src/play/db/jpa/JPA.java:81-88 | a no-op when JPA is disabled. When JPA is enabled and there is no factory, it throws a null-pointer exception and changes nothing. Otherwise it begins a transaction on a manager that was never begun before. It binds a context that records `readonly` and keeps `Valid()` |
| `Jpa.JPA.CloseTx` | framework/src/play/db/jpa/JPA.java:90-101 | a no-op when JPA is disabled or no context is bound. Otherwise the bound transaction is open. It is rolled back iff the context is read-only or `rollback` is set, and committed otherwise. The context is then cleared. `Valid()` is kept |
| `Hibernate.TransactionsBegunAndEndedOnce` | framework/src/play/db/jpa/JPA.java:85-99 | in a well-formed log, each transaction is ended only if it was begun, is begun at most once and is ended at most once; `Valid()` keeps this true of everything `startTx` and `closeTx` do |
| `Hibernate.Ejb3Configuration.constructor` | framework/src/play/db/jpa/JPA.java:35 | a new builder has no data source, no properties and no annotated classes |
| `Hibernate.Ejb3Configuration.SetDataSource` | framework/src/play/db/jpa/JPA.java:36 | sets the data source and keeps the properties and the annotated classes |
| `Hibernate.Ejb3Configuration.SetProperty` | framework/src/play/db/jpa/JPA.java:37-39 | sets one key and keeps the data source and the annotated classes |
| `Hibernate.Ejb3Configuration.AddAnnotatedClass` | framework/src/play/db/jpa/JPA.java:49 | appends one class to the builder's annotated classes and changes nothing else |

## Left out

- Hibernate itself is not modelled. This covers `Ejb3Configuration` beyond its setters, factory building, `EntityManager` and real transaction semantics. The library is represented only by the values it is given and a log of the calls made on it.
- The reflection override of `overridenClassLoader` (lines 41-46) and its printed stack trace are not modelled; they are a foreign call with no behaviour the controller relies on.
- Classpath scanning (`Play.classloader.getAllClasses()`, line 20) is not modelled. `Init` takes the class list as a parameter, and each class carries a flag for the `@Entity` annotation.
- Logging (lines 31, 50 and 53) is not modelled; it has no effect on control flow.
- Thread-locality and concurrency of `JPAContext` are not modelled. The model holds one task's context slot as a value with the entity manager and the read-only flag; the behaviour of the context class itself (`createContext`, `get`, `clearContext`) is not part of this model.
- Exceptions thrown by commit or rollback are not modelled, so `CloseTx` always clears the context. In the source a throwing commit or rollback would leave the context bound.
- `getEntityManager` (lines 64-66) is not modelled; it is a bare delegation to the factory.
- Jpa.DefaultDialect: the driver is a string and cannot be null. The null driver reaches the lookup only from `init(classes, p)`, and `InitWith` models that case as a null-pointer exception.
- Entity-manager identity is a counter inside the model; the library's own object identity is not modelled.
