/** The records both backends keep: users and products, the lookups the
    handlers make in them, and the registration checks, which the two
    backends make in the same order with different messages. */
module Records {
  import opened Common

  /** A stored user. The server keeps a password hash here, the mock the
      password itself. */
  datatype User = User(id: string, name: string, email: string, password: string,
                       role: Role, createdAt: string)

  /** What registration returns to the client: the user without the password. */
  datatype PublicUser = PublicUser(id: string, name: string, email: string, role: Role)

  datatype Product = Product(id: string, name: string, price: int, description: string,
                             image: string, category: string, stock: int)

  function Public(u: User): PublicUser {
    PublicUser(u.id, u.name, u.email, u.role)
  }

  const MinPasswordLength := 6

  /** JavaScript's `length` of a string: the number of UTF-16 code units,
      so a character outside the Basic Multilingual Plane counts twice. */
  function Utf16Length(s: string): (n: nat)
    ensures n == |s| + |Astral(s)|
    ensures |s| <= n <= 2 * |s|
    ensures (forall i :: 0 <= i < |s| ==> (s[i] as int) < 0x10000) ==> n == |s|
  {
    if |s| == 0 then
      assert Astral(s) == {};
      0
    else
      AstralOfPrefix(s);
      Utf16Length(s[..|s| - 1]) + (if (s[|s| - 1] as int) < 0x10000 then 1 else 2)
  }

  /** The positions of the characters outside the Basic Multilingual
      Plane: each is written as a surrogate pair of two code units. */
  function Astral(s: string): set<int> {
    set i | 0 <= i < |s| && (s[i] as int) >= 0x10000
  }

  lemma AstralOfPrefix(s: string)
    requires |s| > 0
    ensures |Astral(s)| == |Astral(s[..|s| - 1])| + (if (s[|s| - 1] as int) < 0x10000 then 0 else 1)
  {
    var t := s[..|s| - 1];
    if (s[|s| - 1] as int) < 0x10000 {
      assert Astral(s) == Astral(t);
    } else {
      assert Astral(s) == Astral(t) + {|s| - 1};
    }
  }

  predicate EmailRegistered(users: seq<User>, email: string) {
    exists i :: 0 <= i < |users| && users[i].email == email
  }

  predicate UniqueEmails(users: seq<User>) {
    forall i, j :: 0 <= i < j < |users| ==> users[i].email != users[j].email
  }

  /** Why a registration is refused. Missing fields are tested first, then
      the password length, then the e-mail. */
  datatype RegistrationFault = MissingField | ShortPassword | EmailTaken

  /** The checks of registration; a missing (undefined, null or empty)
      field is represented by the empty string. */
  function CheckRegistration(users: seq<User>, name: string, email: string, password: string)
    : (r: Option<RegistrationFault>)
    ensures r == Some(MissingField) <==> name == "" || email == "" || password == ""
    ensures r == Some(ShortPassword) <==>
              name != "" && email != "" && password != "" && Utf16Length(password) < MinPasswordLength
    ensures r == Some(EmailTaken) <==>
              name != "" && email != "" && Utf16Length(password) >= MinPasswordLength && EmailRegistered(users, email)
    ensures r == None <==>
              name != "" && email != "" && Utf16Length(password) >= MinPasswordLength && !EmailRegistered(users, email)
  {
    if name == "" || email == "" || password == "" then Some(MissingField)
    else if Utf16Length(password) < MinPasswordLength then Some(ShortPassword)
    else if FirstIndex(users, (u: User) => u.email == email).Some? then Some(EmailTaken)
    else None
  }

  /** Three emoji are six UTF-16 units: long enough, as `length` counts. */
  lemma EmojiPasswordLongEnough()
    ensures CheckRegistration([], "a", "b", "\U{1F600}\U{1F600}\U{1F600}") == None
  {
    var pw := "\U{1F600}\U{1F600}\U{1F600}";
    var one := "\U{1F600}";
    assert one[..0] == "" && Utf16Length(one) == 2;
    assert pw[..2] == one + one && (one + one)[..1] == one;
    assert Utf16Length(pw[..2]) == 4;
    assert Utf16Length(pw) == 6;
  }

  /** A user that passes the checks keeps the e-mail addresses unique. */
  lemma RegistrationKeepsEmailsUnique(users: seq<User>, u: User)
    requires UniqueEmails(users)
    requires !EmailRegistered(users, u.email)
    ensures UniqueEmails(users + [u])
  {
    var all := users + [u];
    forall i, j | 0 <= i < j < |all| ensures all[i].email != all[j].email {
      if j == |users| {
        assert all[i] == users[i];
      }
    }
  }

  /** `products.find(p => p.id === id)`. */
  function FindProduct(products: seq<Product>, id: string): (r: Option<Product>)
    ensures r.Some? ==> r.value in products && r.value.id == id
    ensures r.Some? ==> ProductIndex(products, id).Some?
                        && r.value == products[ProductIndex(products, id).value]
    ensures r.None? <==> forall k :: 0 <= k < |products| ==> products[k].id != id
  {
    match ProductIndex(products, id)
    case Some(k) => Some(products[k])
    case None => None
  }

  /** `products.findIndex(p => p.id === id)`. */
  function ProductIndex(products: seq<Product>, id: string): (r: Option<nat>)
    ensures r.Some? ==> r.value < |products| && products[r.value].id == id
    ensures r.Some? ==> forall k :: 0 <= k < r.value ==> products[k].id != id
    ensures r.None? <==> forall k :: 0 <= k < |products| ==> products[k].id != id
  {
    FirstIndex(products, (p: Product) => p.id == id)
  }

  /** `products.filter(p => p.id !== id)`: deleting a product. */
  function WithoutProduct(products: seq<Product>, id: string): (r: seq<Product>)
    ensures forall k :: 0 <= k < |r| ==> r[k] in products && r[k].id != id
    ensures forall k :: 0 <= k < |products| && products[k].id != id ==> products[k] in r
    ensures SubsequenceOf(r, products)
    ensures (forall k :: 0 <= k < |products| ==> products[k].id != id) ==> r == products
    ensures forall x :: multiset(r)[x] == if x.id != id then multiset(products)[x] else 0
  {
    FilterIsSubsequence(products, (p: Product) => p.id != id);
    FilterCounts(products, (p: Product) => p.id != id);
    Filter(products, (p: Product) => p.id != id)
  }

  /** `users.find(u => u.id === id)`. */
  function FindUser(users: seq<User>, id: string): (r: Option<User>)
    ensures r.Some? ==> r.value in users && r.value.id == id
    ensures r.Some? ==> UserIndex(users, id).Some? && r.value == users[UserIndex(users, id).value]
    ensures r.None? <==> forall k :: 0 <= k < |users| ==> users[k].id != id
  {
    match UserIndex(users, id)
    case Some(k) => Some(users[k])
    case None => None
  }

  /** Where `users.find(u => u.id === id)` stops. */
  function UserIndex(users: seq<User>, id: string): (r: Option<nat>)
    ensures r.Some? ==> r.value < |users| && users[r.value].id == id
    ensures r.Some? ==> forall k :: 0 <= k < r.value ==> users[k].id != id
    ensures r.None? <==> forall k :: 0 <= k < |users| ==> users[k].id != id
  {
    FirstIndex(users, (u: User) => u.id == id)
  }
}
