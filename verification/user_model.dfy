/**
 * The backend user document (backend/models/userModel.js): the postal-code
 * validator, the comma stripping and password hashing of the pre-save hook,
 * the `fullName` virtual, `matchPassword`, `updateProfileImage`, the
 * `isAdmin` default, and the unique email and phone declarations as an
 * invariant of an in-memory collection. bcrypt is a pair of function
 * parameters: `hash(password, salt)` and `compare(candidate, hashed)`.
 */
module UserModel {
  import opened Wrappers

  // ---- Postal codes

  /** The schema validator: a postal code is accepted iff it holds no comma. */
  predicate PostalCodeValid(value: string) {
    ',' !in value
  }

  /** `value.replace(/,/g, "")`. */
  function StripCommas(s: string): (r: string)
    ensures |r| <= |s|
    ensures PostalCodeValid(r)
  {
    if s == [] then []
    else if s[0] == ',' then StripCommas(s[1..])
    else [s[0]] + StripCommas(s[1..])
  }

  /** Stripping works piecewise: the non-comma characters are kept in order. */
  lemma {:induction false} StripCommasAppend(a: string, b: string)
    ensures StripCommas(a + b) == StripCommas(a) + StripCommas(b)
  {
    if a == [] {
      assert a + b == b;
    } else {
      assert (a + b)[1..] == a[1..] + b;
      StripCommasAppend(a[1..], b);
    }
  }

  /** A comma-free text is left as it is. */
  lemma {:induction false} StripCommasKeepsValid(s: string)
    requires PostalCodeValid(s)
    ensures StripCommas(s) == s
  {
    if s != [] {
      assert s == [s[0]] + s[1..];
      StripCommasKeepsValid(s[1..]);
    }
  }

  /** The validator accepts exactly the texts stripping leaves unchanged. */
  lemma StripCommasFixedExactly(s: string)
    ensures StripCommas(s) == s <==> PostalCodeValid(s)
  {
    if PostalCodeValid(s) {
      StripCommasKeepsValid(s);
    }
  }

  lemma StripCommasIdempotent(s: string)
    ensures StripCommas(StripCommas(s)) == StripCommas(s)
  {
    StripCommasKeepsValid(StripCommas(s));
  }

  /** Every character other than a comma occurs as often before as after. */
  lemma {:induction false} StripCommasKeepsOthers(s: string, c: char)
    requires c != ','
    ensures multiset(StripCommas(s))[c] == multiset(s)[c]
    ensures multiset(StripCommas(s))[','] == 0
  {
    if s != [] {
      assert s == [s[0]] + s[1..];
      StripCommasKeepsOthers(s[1..], c);
    }
  }

  // ---- bcrypt, abstractly

  /**
   * What the model needs of bcrypt: a hashed password compares equal to
   * the password it was made from, to no other, differs from it, and is
   * never empty.
   */
  ghost predicate BcryptLike(hash: (string, string) -> string, compare: (string, string) -> bool) {
    && (forall p, s :: compare(p, hash(p, s)))
    && (forall p, q, s :: compare(p, hash(q, s)) ==> p == q)
    && (forall p, s :: hash(p, s) != p)
    && (forall p, s :: hash(p, s) != "")
  }

  /** A stand-in pair with those properties (it shows they can hold together). */
  function ToyHash(p: string, s: string): string { "#" + p }
  function ToyCompare(candidate: string, hashed: string): bool { hashed == "#" + candidate }

  lemma ToyIsBcryptLike()
    ensures BcryptLike(ToyHash, ToyCompare)
  {
    forall p: string, s: string
      ensures ToyHash(p, s) != p
    {
      assert |ToyHash(p, s)| == |p| + 1;
    }
    forall p: string, q: string, s: string | ToyCompare(p, ToyHash(q, s))
      ensures p == q
    {
      assert p == ("#" + p)[1..] == ("#" + q)[1..] == q;
    }
  }

  // ---- The pre-save hook's effect on the stored password

  /**
   * The hook as written: `next()` is called without `return` when the
   * password is unmodified, so control falls through and the stored value
   * is hashed again on every save.
   */
  function SavedPasswordAsWritten(password: string, modified: bool, salt: string, hash: (string, string) -> string): (r: string)
    ensures r == hash(password, salt)
  {
    hash(password, salt)
  }

  /** The hook as intended: only a modified password is hashed. */
  function SavedPassword(password: string, modified: bool, salt: string, hash: (string, string) -> string): (r: string)
    ensures modified ==> r == hash(password, salt)
    ensures !modified ==> r == password
  {
    if modified then hash(password, salt) else password
  }

  /**
   * As written, saving a user a second time without touching the password
   * hashes the stored hash, and the user's own password no longer matches.
   */
  lemma ResaveLocksOutAsWritten(p: string, s1: string, s2: string,
                                hash: (string, string) -> string, compare: (string, string) -> bool)
    requires BcryptLike(hash, compare)
    ensures compare(p, SavedPasswordAsWritten(p, true, s1, hash))
    ensures !compare(p, SavedPasswordAsWritten(SavedPasswordAsWritten(p, true, s1, hash), false, s2, hash))
  {
    var h1 := hash(p, s1);
    assert h1 != p;
  }

  /** As intended, any number of later saves keeps the password matching. */
  lemma ResaveKeepsLogin(p: string, s1: string, s2: string,
                         hash: (string, string) -> string, compare: (string, string) -> bool)
    requires BcryptLike(hash, compare)
    ensures compare(p, SavedPassword(SavedPassword(p, true, s1, hash), false, s2, hash))
    ensures SavedPassword(p, true, s1, hash) != p
  {
  }

  // ---- Stored records and the collection

  datatype UserRecord = UserRecord(
    firstName: string, lastName: string, email: string, phone: int,
    address: string, city: string, postalCode: string, profileImage: Option<string>,
    password: string, accessLevel: int, isAdmin: bool)

  /**
   * Mongoose's validation of a document before it is saved: every
   * `required` string holds a non-empty value (a required string path
   * rejects ""), and the postal code passes its validator. The number paths
   * always hold a value in this model.
   */
  predicate Validates(r: UserRecord) {
    && r.firstName != "" && r.lastName != "" && r.email != "" && r.address != "" && r.city != ""
    && r.postalCode != "" && r.password != "" && PostalCodeValid(r.postalCode)
  }

  /** Two records that the unique email or unique phone index cannot hold together. */
  predicate Clash(a: UserRecord, b: UserRecord) {
    a.email == b.email || a.phone == b.phone
  }

  /** The unique declarations: no two stored users share an email or a phone. */
  predicate Unique(records: seq<UserRecord>) {
    forall i, j :: 0 <= i < j < |records| ==> !Clash(records[i], records[j])
  }

  predicate ClashesWith(records: seq<UserRecord>, r: UserRecord) {
    exists i :: 0 <= i < |records| && Clash(records[i], r)
  }

  /** A record may join the collection exactly when it clashes with no stored record. */
  lemma AppendUniqueExactly(records: seq<UserRecord>, r: UserRecord)
    requires Unique(records)
    ensures Unique(records + [r]) <==> !ClashesWith(records, r)
  {
    var all := records + [r];
    if ClashesWith(records, r) {
      var i :| 0 <= i < |records| && Clash(records[i], r);
      assert all[i] == records[i] && all[|records|] == r;
      assert Clash(all[i], all[|records|]);
    }
  }

  /** The in-memory collection of saved users. */
  class UserCollection {
    var records: seq<UserRecord>

    ghost predicate Valid()
      reads this
    {
      Unique(records)
    }

    constructor ()
      ensures Valid() && records == []
    {
      records := [];
    }

    /** Saving a new user: refused (a duplicate-key error) when its email or phone is taken. */
    method Insert(r: UserRecord) returns (inserted: bool)
      requires Valid()
      modifies this
      ensures Valid()
      ensures inserted <==> !ClashesWith(old(records), r)
      ensures records == if inserted then old(records) + [r] else old(records)
    {
      inserted := true;
      var i := 0;
      while i < |records|
        invariant 0 <= i <= |records|
        invariant inserted <==> forall k :: 0 <= k < i ==> !Clash(records[k], r)
      {
        if Clash(records[i], r) {
          inserted := false;
        }
        i := i + 1;
      }
      if inserted {
        AppendUniqueExactly(records, r);
        records := records + [r];
      }
    }
  }

  // ---- The document

  class UserDocument {
    var firstName: string
    var lastName: string
    var email: string
    var phone: int
    var address: string
    var city: string
    var postalCode: string
    var profileImage: Option<string>
    var password: string
    var accessLevel: int
    var isAdmin: bool
    /** Mongoose's `isModified("password")`. */
    var passwordModified: bool

    /** A new document: `isAdmin` defaults to false, and its password counts as modified. */
    constructor (firstName: string, lastName: string, email: string, phone: int, address: string,
                 city: string, postalCode: string, profileImage: Option<string>, password: string,
                 accessLevel: int, isAdmin: Option<bool>)
      ensures Record() == UserRecord(firstName, lastName, email, phone, address, city, postalCode,
                                     profileImage, password, accessLevel, isAdmin == Some(true))
      ensures passwordModified
    {
      this.firstName := firstName;
      this.lastName := lastName;
      this.email := email;
      this.phone := phone;
      this.address := address;
      this.city := city;
      this.postalCode := postalCode;
      this.profileImage := profileImage;
      this.password := password;
      this.accessLevel := accessLevel;
      this.isAdmin := if isAdmin.Some? then isAdmin.value else false;
      this.passwordModified := true;
    }

    function Record(): UserRecord
      reads this
    {
      UserRecord(firstName, lastName, email, phone, address, city, postalCode,
                 profileImage, password, accessLevel, isAdmin)
    }

    /** The `fullName` virtual: the first name, one space, the last name. */
    function FullName(): (r: string)
      reads this`firstName, this`lastName
      ensures |r| == |firstName| + 1 + |lastName|
      ensures r[..|firstName|] == firstName && r[|firstName|] == ' ' && r[|firstName| + 1..] == lastName
    {
      firstName + " " + lastName
    }

    /** `matchPassword`: bcrypt's comparison of the candidate with the stored value, nothing more. */
    method MatchPassword(entered: string, compare: (string, string) -> bool) returns (r: bool)
      ensures r == compare(entered, password)
    {
      r := compare(entered, password);
    }

    /** `updateProfileImage`: only the image path changes. */
    method UpdateProfileImage(imagePath: string)
      modifies this`profileImage
      ensures profileImage == Some(imagePath)
    {
      profileImage := Some(imagePath);
    }

    /**
     * The pre-save hook as written: with the password unmodified, `next()`
     * runs and control falls through, so the password is hashed anyway and
     * `next()` runs a second time; `nextCalls` counts them.
     */
    method PreSaveAsWritten(salt: string, hash: (string, string) -> string) returns (nextCalls: nat)
      modifies this`password, this`postalCode
      ensures password == SavedPasswordAsWritten(old(password), old(passwordModified), salt, hash)
      ensures postalCode == StripCommas(old(postalCode))
      ensures nextCalls == if old(passwordModified) then 1 else 2
    {
      nextCalls := 0;
      if !passwordModified {
        nextCalls := nextCalls + 1;
      }
      password := hash(password, salt);
      postalCode := StripCommas(postalCode);
      nextCalls := nextCalls + 1;
    }

    /** The pre-save hook with the early return: an unmodified password is left alone. */
    method PreSave(salt: string, hash: (string, string) -> string) returns (nextCalls: nat)
      modifies this`password, this`postalCode
      ensures password == SavedPassword(old(password), old(passwordModified), salt, hash)
      ensures postalCode == StripCommas(old(postalCode))
      ensures nextCalls == 1
    {
      if passwordModified {
        password := hash(password, salt);
      }
      postalCode := StripCommas(postalCode);
      nextCalls := 1;
    }

    /**
     * `save()` with the hook as written: Mongoose validates the document
     * before it runs the `pre("save")` hooks, and a document that fails
     * validation is not saved and the hook does not run. Otherwise the hook
     * runs, hashing the password whether or not it was modified, and after
     * the write nothing counts as modified. A postal code that passed the
     * validator holds no comma, so the hook's stripping leaves it as it was.
     */
    method Save(salt: string, hash: (string, string) -> string) returns (saved: bool)
      modifies this`password, this`postalCode, this`passwordModified
      ensures saved == Validates(old(Record()))
      ensures !saved ==>
        password == old(password) && postalCode == old(postalCode) && passwordModified == old(passwordModified)
      ensures saved ==>
        && password == SavedPasswordAsWritten(old(password), old(passwordModified), salt, hash)
        && postalCode == old(postalCode)
        && !passwordModified
    {
      saved := Validates(Record());
      if !saved {
        return;
      }
      StripCommasFixedExactly(postalCode);
      var _ := PreSaveAsWritten(salt, hash);
      passwordModified := false;
    }

    /** `save()` with the corrected hook: as `Save`, but an unmodified password is left alone. */
    method SaveCorrected(salt: string, hash: (string, string) -> string) returns (saved: bool)
      modifies this`password, this`postalCode, this`passwordModified
      ensures saved == Validates(old(Record()))
      ensures !saved ==>
        password == old(password) && postalCode == old(postalCode) && passwordModified == old(passwordModified)
      ensures saved ==>
        && password == SavedPassword(old(password), old(passwordModified), salt, hash)
        && postalCode == old(postalCode)
        && !passwordModified
    {
      saved := Validates(Record());
      if !saved {
        return;
      }
      StripCommasFixedExactly(postalCode);
      var _ := PreSave(salt, hash);
      passwordModified := false;
    }
  }

  /**
   * As written: a user created with a password `p` and saved twice is saved
   * both times, and then no longer logs in with `p`.
   */
  method CreateSaveTwiceLogin(p: string, s1: string, s2: string,
                              hash: (string, string) -> string, compare: (string, string) -> bool)
    returns (saved: bool, matched: bool)
    requires BcryptLike(hash, compare)
    requires p != ""
    ensures saved && !matched
  {
    var u := new UserDocument("Ada", "Lovelace", "ada@example.com", 5550100, "1 Main St", "London", "N1 9GU", None,
                              p, 10, None);
    var first := u.Save(s1, hash);
    assert u.password == hash(p, s1);
    var second := u.Save(s2, hash);
    saved := first && second;
    ResaveLocksOutAsWritten(p, s1, s2, hash, compare);
    matched := u.MatchPassword(p, compare);
  }

  /** With the corrected hook, the same user is saved both times and still logs in with `p`. */
  method CreateSaveTwiceLoginCorrected(p: string, s1: string, s2: string,
                                       hash: (string, string) -> string, compare: (string, string) -> bool)
    returns (saved: bool, matched: bool)
    requires BcryptLike(hash, compare)
    requires p != ""
    ensures saved && matched
  {
    var u := new UserDocument("Ada", "Lovelace", "ada@example.com", 5550100, "1 Main St", "London", "N1 9GU", None,
                              p, 10, None);
    var first := u.SaveCorrected(s1, hash);
    assert u.password == hash(p, s1);
    var second := u.SaveCorrected(s2, hash);
    saved := first && second;
    ResaveKeepsLogin(p, s1, s2, hash, compare);
    matched := u.MatchPassword(p, compare);
  }
}
