/** The signed-in user and the text form in which it is kept in storage.

    The dashboard stores the user through `JSON.stringify` and reads it back
    through `JSON.parse`. Here the text form is a small JSON object with four
    string members in a fixed order, in which a string escapes only the quote
    and the backslash, and the round trip is proved rather than assumed. */
module UserRecord {
  import opened Wrappers
  import opened Text

  datatype User = User(id: string, email: string, initials: string, createdAt: string)

  /** `email.split("@")[0].substring(0, 2).toUpperCase()`: the first two
      characters of the part before the first '@' (fewer when that part is
      shorter), upper-cased. */
  function Initials(email: string): (r: string)
    ensures |r| <= 2 && |r| <= |email|
    ensures forall i :: 0 <= i < |r| ==> r[i] == UpperChar(email[i]) && email[i] != '@'
    ensures |r| < 2 ==> |r| == |email| || email[|r|] == '@'
  {
    Upper(Prefix(BeforeFirst(email, '@'), 2))
  }

  /** The user that a successful login or registration creates: the id is
      "user_" followed by the clock reading in milliseconds, and the creation
      time is the ISO text of the same clock, passed in. */
  function NewUser(email: string, now: nat, createdAt: string): (u: User)
    ensures u.email == email && u.createdAt == createdAt
    ensures StartsWith(u.id, "user_") && AllDigits(u.id[5..]) && ParseDigits(u.id[5..]) == now
    ensures u.initials == Initials(email)
  {
    var id := "user_" + NatToString(now);
    assert id[5..] == NatToString(now);
    ParseNatToString(now);
    User(id, email, Initials(email), createdAt)
  }

  // ---- string members ----

  /** The body of a quoted string: '"' and '\' are preceded by a '\'. */
  function Escape(s: string): (r: string)
    ensures |r| >= |s|
  {
    if s == [] then []
    else (if s[0] == '"' || s[0] == '\\' then ['\\', s[0]] else [s[0]]) + Escape(s[1..])
  }

  /** Reads a string body up to its closing '"'; gives the decoded text and
      what follows the quote, or None when the text ends first or has an escape
      other than \" and \\. */
  function ParseBody(s: string): (r: Option<(string, string)>)
    ensures r.Some? ==> |r.value.1| < |s|
  {
    if s == [] then None
    else if s[0] == '"' then Some(([], s[1..]))
    else if s[0] == '\\' then
      if |s| >= 2 && (s[1] == '"' || s[1] == '\\') then
        match ParseBody(s[2..])
        case None => None
        case Some(p) => Some(([s[1]] + p.0, p.1))
      else None
    else
      match ParseBody(s[1..])
      case None => None
      case Some(p) => Some(([s[0]] + p.0, p.1))
  }

  /** One escaped character ahead of a readable body. */
  lemma ParseBodyEscapedChar(c: char, tail: string, body: string, rest: string)
    requires c == '"' || c == '\\'
    requires ParseBody(tail) == Some((body, rest))
    ensures ParseBody(['\\', c] + tail) == Some(([c] + body, rest))
  {
    var t := ['\\', c] + tail;
    assert t[0] == '\\' && t[1] == c && t[2..] == tail;
  }

  /** One plain character ahead of a readable body. */
  lemma ParseBodyPlainChar(c: char, tail: string, body: string, rest: string)
    requires c != '"' && c != '\\'
    requires ParseBody(tail) == Some((body, rest))
    ensures ParseBody([c] + tail) == Some(([c] + body, rest))
  {
    var t := [c] + tail;
    assert t[0] == c && t[1..] == tail;
  }

  lemma EscapeCons(s: string)
    requires s != []
    ensures Escape(s) == (if s[0] == '"' || s[0] == '\\' then ['\\', s[0]] else [s[0]]) + Escape(s[1..])
  {
  }

  lemma {:induction false} ParseBodyEscape(s: string, rest: string)
    ensures ParseBody(Escape(s) + ("\"" + rest)) == Some((s, rest))
  {
    if s == [] {
      assert Escape(s) + ("\"" + rest) == "\"" + rest;
    } else {
      var head := if s[0] == '"' || s[0] == '\\' then ['\\', s[0]] else [s[0]];
      var tail := Escape(s[1..]) + ("\"" + rest);
      ParseBodyEscape(s[1..], rest);
      EscapeCons(s);
      assert Escape(s) + ("\"" + rest) == head + tail;
      assert [s[0]] + s[1..] == s;
      if s[0] == '"' || s[0] == '\\' {
        ParseBodyEscapedChar(s[0], tail, s[1..], rest);
      } else {
        ParseBodyPlainChar(s[0], tail, s[1..], rest);
      }
    }
  }

  // ---- the record ----

  const IdKey: string := "{\"id\":\""
  const EmailKey: string := ",\"email\":\""
  const InitialsKey: string := ",\"initials\":\""
  const CreatedAtKey: string := ",\"createdAt\":\""
  const Close: string := "}"

  /** One member: its key (with the opening quote of the value), the escaped
      value, the closing quote, then the rest of the object. */
  function Member(key: string, value: string, rest: string): string {
    key + (Escape(value) + ("\"" + rest))
  }

  /** Reads one member that starts with the given key. */
  function Field(key: string, s: string): (r: Option<(string, string)>)
    ensures r.Some? ==> StartsWith(s, key) && |r.value.1| < |s|
  {
    if StartsWith(s, key) then ParseBody(s[|key|..]) else None
  }

  lemma FieldMember(key: string, value: string, rest: string)
    ensures Field(key, Member(key, value, rest)) == Some((value, rest))
  {
    var m := Member(key, value, rest);
    assert m[..|key|] == key;
    assert m[|key|..] == Escape(value) + ("\"" + rest);
    ParseBodyEscape(value, rest);
  }

  /** `JSON.stringify(user)` */
  function SerializeUser(u: User): (r: string)
    ensures StartsWith(r, IdKey)
  {
    Member(IdKey, u.id, Member(EmailKey, u.email, Member(InitialsKey, u.initials,
      Member(CreatedAtKey, u.createdAt, Close))))
  }

  /** `JSON.parse(text)` for a stored user, as far as this codec goes: None
      for any text the codec cannot read. That covers malformed text, on
      which the browser throws, and also JSON in another layout or of
      another shape, which the browser would accept. */
  function ParseUser(s: string): (r: Option<User>)
    ensures r.Some? ==> StartsWith(s, IdKey)
  {
    var f1 := Field(IdKey, s);
    if f1.None? then None else
    var f2 := Field(EmailKey, f1.value.1);
    if f2.None? then None else
    var f3 := Field(InitialsKey, f2.value.1);
    if f3.None? then None else
    var f4 := Field(CreatedAtKey, f3.value.1);
    if f4.None? || f4.value.1 != Close then None
    else Some(User(f1.value.0, f2.value.0, f3.value.0, f4.value.0))
  }

  /** Reading back a stored user gives the same user. */
  lemma UserRoundTrip(u: User)
    ensures ParseUser(SerializeUser(u)) == Some(u)
  {
    var m4 := Member(CreatedAtKey, u.createdAt, Close);
    var m3 := Member(InitialsKey, u.initials, m4);
    var m2 := Member(EmailKey, u.email, m3);
    FieldMember(IdKey, u.id, m2);
    FieldMember(EmailKey, u.email, m3);
    FieldMember(InitialsKey, u.initials, m4);
    FieldMember(CreatedAtKey, u.createdAt, Close);
  }

  /** Two users with the same stored text are the same user. */
  lemma SerializeInjective(u: User, v: User)
    requires SerializeUser(u) == SerializeUser(v)
    ensures u == v
  {
    UserRoundTrip(u);
    UserRoundTrip(v);
  }
}
