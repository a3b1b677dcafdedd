/**
 * Stand-ins for the Java platform types the JPA plugin passes around:
 * java.util.Properties, a javax.sql data source and java.lang.Class.
 */
module JavaPlatform {

  /** A java.util.Properties bag: keys mapped to string values. */
  type Properties = map<string, string>

  /** Properties.getProperty(key, default). */
  function GetProperty(p: Properties, key: string, default: string): string
  {
    if key in p then p[key] else default
  }

  /** An opaque connection source (DB.datasource when it is not null). */
  datatype DataSource = DataSource(name: string)

  /** A class found on the application classpath, and whether it carries @Entity. */
  datatype ClassInfo = ClassInfo(name: string, hasEntityAnnotation: bool)
}
