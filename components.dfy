/** Names of application components, as the VR manager sees them. */
module Components {

  /** A package or class name. Android package and class names never contain ':',
      the separator of the enabled-notification-listeners setting. */
  type Name = s: string | ':' !in s witness ""

  /** android.content.ComponentName: a package name and a class name. */
  datatype Component = Component(pkg: Name, cls: Name)

  /** ComponentName.flattenToString(): the package, a '/', then the class. */
  function Flatten(c: Component): (r: string)
    ensures r != "" && ':' !in r
    ensures |r| > |c.pkg| && r[..|c.pkg|] == c.pkg && r[|c.pkg|] == '/'
  {
    c.pkg + "/" + c.cls
  }
}
