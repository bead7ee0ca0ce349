/**
 * PowerControlDevice and its clean(): fields the user left blank take the
 * device type's defaults, the address is mandatory, and a blank name becomes
 * the address.
 */
module PowerDevice {
  import opened Wrappers
  import opened PowerTypes

  /** The device's editable fields; None is a NULL / unset value. */
  datatype DeviceFields = DeviceFields(
    name: Option<string>,
    address: Option<string>,
    port: Option<nat>,
    username: Option<string>,
    password: Option<string>,
    options: Option<string>)

  /** `value in ["", None]` */
  predicate Blank(s: Option<string>) { s == None || s == Some("") }

  /** The fields that fall back to the type's default_<field>, in the order clean visits them. */
  const TypeDefaults: seq<string> := ["username", "password", "options", "port"]

  /** getattr(self, field) in ["", None]; a port is an integer, so only None is blank. */
  predicate FieldBlank(f: DeviceFields, field: string) {
    match field
    case "username" => Blank(f.username)
    case "password" => Blank(f.password)
    case "options" => Blank(f.options)
    case "port" => f.port.None?
    case _ => false
  }

  /** setattr(self, field, device_type.default_<field>) when the field is blank. */
  function DefaultField(f: DeviceFields, t: PowerControlType, field: string): DeviceFields {
    if !FieldBlank(f, field) then f
    else match field
      case "username" => f.(username := t.defaultUsername)
      case "password" => f.(password := t.defaultPassword)
      case "options" => f.(options := t.defaultOptions)
      case "port" => f.(port := Some(t.defaultPort))
      case _ => f
  }

  /** The defaulting loop run over `fields` in order. */
  function DefaultFields(f: DeviceFields, t: PowerControlType, fields: seq<string>): DeviceFields
    decreases |fields|
  {
    if fields == [] then f
    else DefaultField(DefaultFields(f, t, fields[..|fields| - 1]), t, fields[|fields| - 1])
  }

  const BlankAddressMessage: string := "Address may not be blank"

  /** The fields after clean (already defaulted when clean fails) and the ValidationError, if any. */
  datatype Cleaning = Cleaning(fields: DeviceFields, error: Option<string>)

  function Cleaned(f: DeviceFields, t: PowerControlType): Cleaning {
    var g := DefaultFields(f, t, TypeDefaults);
    if Blank(g.address) then Cleaning(g, Some(BlankAddressMessage))
    else Cleaning(g.(name := if Blank(g.name) then g.address else g.name), None)
  }

  /**
   * clean replaces each of username, password, options and port by the
   * type's default exactly when it is blank, fails exactly when the address
   * is blank, and otherwise names an unnamed device after its address.
   */
  lemma CleanedFieldRules(f: DeviceFields, t: PowerControlType)
    ensures var c := Cleaned(f, t);
      && c.fields.username == (if Blank(f.username) then t.defaultUsername else f.username)
      && c.fields.password == (if Blank(f.password) then t.defaultPassword else f.password)
      && c.fields.options == (if Blank(f.options) then t.defaultOptions else f.options)
      && c.fields.port == (if f.port.None? then Some(t.defaultPort) else f.port)
      && c.fields.address == f.address
      && (c.error.Some? <==> Blank(f.address))
      && (c.error.Some? ==> c.fields.name == f.name)
      && (c.error.None? ==> c.fields.name == if Blank(f.name) then f.address else f.name)
  {
    var f1 := DefaultField(f, t, "username");
    var f2 := DefaultField(f1, t, "password");
    var f3 := DefaultField(f2, t, "options");
    var f4 := DefaultField(f3, t, "port");
    assert TypeDefaults[..1][..0] == [];
    assert DefaultFields(f, t, TypeDefaults[..1]) == f1;
    assert TypeDefaults[..2][..1] == TypeDefaults[..1];
    assert DefaultFields(f, t, TypeDefaults[..2]) == f2;
    assert TypeDefaults[..3][..2] == TypeDefaults[..2];
    assert DefaultFields(f, t, TypeDefaults[..3]) == f3;
    assert TypeDefaults[..3] == TypeDefaults[..|TypeDefaults| - 1];
    assert DefaultFields(f, t, TypeDefaults) == f4;
  }

  /** Cleaning a cleaned device changes nothing more. */
  lemma CleanIdempotent(f: DeviceFields, t: PowerControlType)
    ensures Cleaned(Cleaned(f, t).fields, t) == Cleaned(f, t)
  {
    CleanedFieldRules(f, t);
    CleanedFieldRules(Cleaned(f, t).fields, t);
  }

  class PowerControlDevice {
    const deviceType: PowerControlType
    var name: Option<string>
    var address: Option<string>
    var port: Option<nat>
    var username: Option<string>
    var password: Option<string>
    var options: Option<string>

    function Fields(): DeviceFields
      reads this
    {
      DeviceFields(name, address, port, username, password, options)
    }

    constructor (t: PowerControlType, f: DeviceFields)
      ensures deviceType == t && Fields() == f
    {
      deviceType := t;
      name, address, port := f.name, f.address, f.port;
      username, password, options := f.username, f.password, f.options;
    }

    /** getattr(self, field) in ["", None] */
    method FieldIsBlank(field: string) returns (b: bool)
      requires field in TypeDefaults
      ensures b == FieldBlank(Fields(), field)
    {
      match field
      case "username" => b := Blank(username);
      case "password" => b := Blank(password);
      case "options" => b := Blank(options);
      case "port" => b := port.None?;
    }

    /** setattr(self, field, getattr(self.device_type, "default_" + field)) */
    method SetToTypeDefault(field: string)
      requires field in TypeDefaults && FieldBlank(Fields(), field)
      modifies this
      ensures Fields() == DefaultField(old(Fields()), deviceType, field)
    {
      match field
      case "username" => username := deviceType.defaultUsername;
      case "password" => password := deviceType.defaultPassword;
      case "options" => options := deviceType.defaultOptions;
      case "port" => port := Some(deviceType.defaultPort);
    }

    /** PowerControlDevice.clean, without the DNS lookup of the address. */
    method Clean() returns (error: Option<string>)
      modifies this
      ensures Fields() == Cleaned(old(Fields()), deviceType).fields
      ensures error == Cleaned(old(Fields()), deviceType).error
    {
      for i := 0 to |TypeDefaults|
        invariant Fields() == DefaultFields(old(Fields()), deviceType, TypeDefaults[..i])
      {
        var field := TypeDefaults[i];
        assert TypeDefaults[..i + 1][..i] == TypeDefaults[..i];
        var blank := FieldIsBlank(field);
        if blank {
          SetToTypeDefault(field);
        }
      }
      assert TypeDefaults[..|TypeDefaults|] == TypeDefaults;
      if Blank(address) {
        return Some(BlankAddressMessage);
      }
      if Blank(name) {
        name := address;
      }
      return None;
    }
  }
}
