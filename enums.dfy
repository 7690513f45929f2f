/** The numeric enumerations of the application's domain models, with the
    reverse (number-to-name) lookups that TypeScript numeric enums provide. */
module Enums {
  import opened Wrappers

  /** `BookingStatus`: Pending = 0, Cancelled = 1, Approved = 2, Completed = 3. */
  datatype BookingStatus = Pending | Cancelled | Approved | Completed

  function StatusCode(s: BookingStatus): (n: int)
    ensures 0 <= n <= 3
  {
    match s
    case Pending => 0
    case Cancelled => 1
    case Approved => 2
    case Completed => 3
  }

  function StatusOfCode(n: int): (r: Option<BookingStatus>)
    ensures r.Some? <==> 0 <= n <= 3
    ensures r.Some? ==> StatusCode(r.value) == n
  {
    if n == 0 then Some(Pending)
    else if n == 1 then Some(Cancelled)
    else if n == 2 then Some(Approved)
    else if n == 3 then Some(Completed)
    else None
  }

  /** `BookingStatus[s]`: the member's name. */
  function StatusName(s: BookingStatus): string
  {
    match s
    case Pending => "Pending"
    case Cancelled => "Cancelled"
    case Approved => "Approved"
    case Completed => "Completed"
  }

  /** `UserRole`: User = 0, Osnova = 1, Ronin = 2, Admin = 3. Roles are kept
      as integers because the store's column is an integer and the services
      test values outside the enumeration (role 4). */
  const ROLE_USER: int := 0
  const ROLE_OSNOVA: int := 1
  const ROLE_RONIN: int := 2
  const ROLE_ADMIN: int := 3

  /** `UserRole[role]`: the member's name, `undefined` outside 0..3. */
  function RoleName(role: int): (r: Option<string>)
    ensures r.Some? <==> ROLE_USER <= role <= ROLE_ADMIN
    ensures r.Some? ==> RoleOfName(r.value) == Some(role)
  {
    if role == 0 then Some("User")
    else if role == 1 then Some("Osnova")
    else if role == 2 then Some("Ronin")
    else if role == 3 then Some("Admin")
    else None
  }

  /** `UserRole[name]`: the member's number, `undefined` for other names. */
  function RoleOfName(name: string): (r: Option<int>)
    ensures r.Some? ==> ROLE_USER <= r.value <= ROLE_ADMIN
  {
    if name == "User" then Some(0)
    else if name == "Osnova" then Some(1)
    else if name == "Ronin" then Some(2)
    else if name == "Admin" then Some(3)
    else None
  }

  /** `EquipmentAccess`: User = 0, Osnova = 1, Ronin = 2. */
  datatype EquipmentAccess = AccessUser | AccessOsnova | AccessRonin

  function AccessCode(a: EquipmentAccess): (n: int)
    ensures 0 <= n <= 2
  {
    match a
    case AccessUser => 0
    case AccessOsnova => 1
    case AccessRonin => 2
  }

  /** `EquipmentCategory[code]`: Camera = 0 ... Other = 8. */
  function CategoryName(code: int): Option<string>
  {
    if code == 0 then Some("Camera")
    else if code == 1 then Some("Lens")
    else if code == 2 then Some("Card")
    else if code == 3 then Some("Battery")
    else if code == 4 then Some("Charger")
    else if code == 5 then Some("Sound")
    else if code == 6 then Some("Stand")
    else if code == 7 then Some("Light")
    else if code == 8 then Some("Other")
    else None
  }
}
