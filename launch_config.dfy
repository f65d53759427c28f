/**
 * The launch-configuration record the tab reads from and writes to: a map from
 * attribute name to value. Only the three device attributes matter here; every
 * other attribute (those of the project tab, the common tab, ...) is an
 * `OtherAttr`.
 */
module LaunchConfig {

  import opened Wrappers

  datatype AttrName =
    | SigningIdAttr            // ATTR_IOS_DEVICE_SIGNING_ID
    | ProvisioningProfileAttr  // ATTR_IOS_DEVICE_PROVISIONING_PROFILE
    | SkipSigningAttr          // ATTR_IOS_DEVICE_SKIP_SIGNING
    | OtherAttr(key: string)

  datatype AttrValue = StringValue(s: string) | BoolValue(b: bool)

  /** A missing key is an attribute that was never set or was set to null. */
  type Attributes = map<AttrName, AttrValue>

  /** Outcome of `getAttribute(name, (String) null)`. */
  datatype Read = Value(value: Option<string>) | CoreException

  /** The three attributes the device tab owns. */
  const DeviceAttrs: set<AttrName> := {SigningIdAttr, ProvisioningProfileAttr, SkipSigningAttr}

  /**
   * `getAttribute(name, (String) null)`: the stored string, null (the default)
   * when the attribute is absent, and a CoreException when the stored value is
   * not a string.
   */
  function GetString(attrs: Attributes, name: AttrName): (r: Read)
    ensures r == Value(None) <==> name !in attrs
    ensures r.CoreException? <==> name in attrs && attrs[name].BoolValue?
    ensures r.Value? && r.value.Some? ==> name in attrs && attrs[name] == StringValue(r.value.value)
  {
    if name !in attrs then Value(None)
    else match attrs[name]
      case StringValue(s) => Value(Some(s))
      case BoolValue(_) => CoreException
  }

  /** `setAttribute(name, String)`: null removes the attribute. */
  function WithString(attrs: Attributes, name: AttrName, v: Option<string>): (r: Attributes)
    ensures GetString(r, name) == Value(v)
    ensures r - {name} == attrs - {name}
  {
    if v.None? then attrs - {name} else attrs[name := StringValue(v.value)]
  }

  /** `setAttribute(name, boolean)`. */
  function WithBool(attrs: Attributes, name: AttrName, b: bool): (r: Attributes)
    ensures name in r && r[name] == BoolValue(b)
    ensures GetString(r, name) == CoreException
    ensures r - {name} == attrs - {name}
  {
    attrs[name := BoolValue(b)]
  }

  /** A launch configuration (working copy) whose attributes are updated in place. */
  class LaunchConfiguration {

    var attributes: Attributes

    constructor (attrs: Attributes)
      ensures attributes == attrs
    {
      attributes := attrs;
    }

    method SetString(name: AttrName, v: Option<string>)
      modifies this
      ensures attributes == WithString(old(attributes), name, v)
    {
      attributes := WithString(attributes, name, v);
    }

    method SetBool(name: AttrName, b: bool)
      modifies this
      ensures attributes == WithBool(old(attributes), name, b)
    {
      attributes := WithBool(attributes, name, b);
    }
  }
}
