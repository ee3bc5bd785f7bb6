/**
 * The option format validator: a table from field name to type tag is checked
 * against an option set, each of the eleven Pinboard field formats being a
 * predicate on one value.
 *
 * The validator's answer is "some field is INVALID": true when at least one
 * checked field fails its format, false when every checked field passes.
 */
module OptionValidation {
  import opened Wrappers
  import opened Options
  import DateFormat

  /** The eleven format tags the validator knows. */
  datatype FieldType =
    | Tag | Url | Title | Text | Datetime | Date | Yes | No | Md5 | Integer | Format

  function TypeName(t: FieldType): string
  {
    match t
    case Tag => "tag"
    case Url => "url"
    case Title => "title"
    case Text => "text"
    case Datetime => "datetime"
    case Date => "date"
    case Yes => "yes"
    case No => "no"
    case Md5 => "md5"
    case Integer => "integer"
    case Format => "format"
  }

  /** The list isAllowType searches, in its order. */
  const AllowedTypes: seq<string> :=
    ["tag", "url", "title", "text", "datetime", "date", "yes", "no", "md5", "integer", "format"]

  predicate IsAllowType(tag: string)
  {
    tag in AllowedTypes
  }

  /** The tag name as a format, when it is one of the allowed eleven. */
  function ParseType(tag: string): (r: Option<FieldType>)
    ensures r.Some? <==> IsAllowType(tag)
    ensures r.Some? ==> TypeName(r.value) == tag
  {
    if tag == "tag" then Some(Tag)
    else if tag == "url" then Some(Url)
    else if tag == "title" then Some(Title)
    else if tag == "text" then Some(Text)
    else if tag == "datetime" then Some(Datetime)
    else if tag == "date" then Some(Date)
    else if tag == "yes" then Some(Yes)
    else if tag == "no" then Some(No)
    else if tag == "md5" then Some(Md5)
    else if tag == "integer" then Some(Integer)
    else if tag == "format" then Some(Format)
    else None
  }

  /** Every format is reached from its own name, so the eleven names are distinct. */
  lemma ParseTypeName(t: FieldType)
    ensures IsAllowType(TypeName(t))
    ensures ParseType(TypeName(t)) == Some(t)
  {
  }

  // ---- the eleven format predicates -------------------------------------

  /** Up to 255 bytes, strictly fewer than 255 accepted. */
  predicate TagOk(s: string) { |s| < 255 }

  const AllowedSchemes: seq<string> := ["http", "https", "javascript", "mailto", "ftp", "file"]

  predicate IsSchemeChar(c: char)
  {
    ('a' <= c <= 'z') || ('A' <= c <= 'Z') || ('0' <= c <= '9') || c == '+' || c == '-' || c == '.'
  }

  /** The position of the first c in s, if any. */
  function IndexOf(s: string, c: char): (r: Option<nat>)
    ensures r.None? <==> c !in s
    ensures r.Some? ==> r.value < |s| && s[r.value] == c && c !in s[..r.value]
  {
    if s == [] then None
    else if s[0] == c then Some(0)
    else
      match IndexOf(s[1..], c)
      case None => None
      case Some(k) =>
        assert s[1..][..k] == s[1..k + 1];
        Some(k + 1)
  }

  /** The number of decimal digits at the start of s. */
  function LeadingDigits(s: string): (n: nat)
    ensures n <= |s|
    ensures forall i :: 0 <= i < n ==> DateFormat.IsDigit(s[i])
    ensures n < |s| ==> !DateFormat.IsDigit(s[n])
  {
    if s == [] || !DateFormat.IsDigit(s[0]) then 0 else 1 + LeadingDigits(s[1..])
  }

  /**
   * What follows "scheme:" is one to five digits and then the end or a '/':
   * parse_url reads the text as host:port, with no scheme.
   */
  predicate PortLike(rest: string)
  {
    var n := LeadingDigits(rest);
    1 <= n <= 5 && (n == |rest| || rest[n] == '/')
  }

  /** "file" in any letter case, which parse_url compares case-insensitively. */
  predicate IsFileScheme(scheme: string)
  {
    |scheme| == 4 && scheme[0] in "fF" && scheme[1] in "iI" && scheme[2] in "lL" && scheme[3] in "eE"
  }

  /**
   * What follows "scheme:" is "//" and an empty authority (the end, or '/',
   * '?' or '#' straight after it): parse_url fails. A file scheme followed by
   * "///" is read as a path instead.
   */
  predicate HostMissing(scheme: string, rest: string)
  {
    |rest| >= 2 && rest[0] == '/' && rest[1] == '/'
    && !(IsFileScheme(scheme) && |rest| >= 3 && rest[2] == '/')
    && (|rest| == 2 || rest[2] == '/' || rest[2] == '?' || rest[2] == '#')
  }

  /**
   * The scheme parse_url reports: the text before the first ':' when it is
   * non-empty and made of letters, digits, '+', '-' and '.', unless the rest
   * reads as a port (no scheme) or opens an empty authority (parse failure).
   */
  function SchemeOf(url: string): (r: Option<string>)
  {
    match IndexOf(url, ':')
    case None => None
    case Some(k) =>
      if 0 < k && (forall i :: 0 <= i < k ==> IsSchemeChar(url[i]))
         && !PortLike(url[k + 1..]) && !HostMissing(url[..k], url[k + 1..])
      then Some(url[..k])
      else None
  }

  /** Parses with a scheme from the allow-list (compared case-sensitively). */
  predicate UrlOk(url: string)
  {
    match SchemeOf(url)
    case None => false
    case Some(scheme) => scheme in AllowedSchemes
  }

  /** Up to 255 bytes, strictly fewer than 255 accepted. */
  predicate TitleOk(s: string) { |s| < 255 }

  /** Up to 65536 bytes, strictly fewer than 65536 accepted. */
  predicate TextOk(s: string) { |s| < 65536 }

  /** Parses as 'Y-m-d\TH:i:s\Z' and formats back to the same text. */
  predicate DatetimeOk(s: string)
  {
    match DateFormat.ParseDateTime(s)
    case None => false
    case Some(t) => DateFormat.FormatDateTime(t) == s
  }

  /** Parses as 'Y-m-d' and formats back to the same text. */
  predicate DateOk(s: string)
  {
    match DateFormat.ParseDate(s)
    case None => false
    case Some(d) => DateFormat.FormatDate(d) == s
  }

  /** The literal string "yes" or "no". */
  predicate YesOk(s: string) { s == "yes" || s == "no" }

  /** The literal string "yes" or "no". */
  predicate NoOk(s: string) { s == "yes" || s == "no" }

  predicate IsXDigit(c: char)
  {
    ('0' <= c <= '9') || ('a' <= c <= 'f') || ('A' <= c <= 'F')
  }

  function AllXDigits(s: string): (r: bool)
    ensures r <==> forall i :: 0 <= i < |s| ==> IsXDigit(s[i])
  {
    if s == [] then true else IsXDigit(s[0]) && AllXDigits(s[1..])
  }

  /** PHP's ctype_xdigit: a non-empty string of hexadecimal digits. */
  predicate CtypeXDigit(s: string)
  {
    |s| > 0 && AllXDigits(s)
  }

  /** 32 hexadecimal digits. */
  predicate Md5Ok(s: string) { |s| == 32 && CtypeXDigit(s) }

  /** An integer in 0..2^32, both ends included. */
  predicate IntegerOk(n: int) { 0 <= n <= 0x1_0000_0000 }

  /** The literal string "json" or "xml". */
  predicate FormatOk(s: string) { s == "json" || s == "xml" }

  /**
   * The predicate the tag names, applied to one value. The integer format
   * takes integers and the others strings; a value of the other kind fails.
   */
  predicate Accepts(t: FieldType, v: Value)
  {
    match v
    case Int(n) => t == Integer && IntegerOk(n)
    case Str(s) =>
      match t
      case Tag => TagOk(s)
      case Url => UrlOk(s)
      case Title => TitleOk(s)
      case Text => TextOk(s)
      case Datetime => DatetimeOk(s)
      case Date => DateOk(s)
      case Yes => YesOk(s)
      case No => NoOk(s)
      case Md5 => Md5Ok(s)
      case Integer => false
      case Format => FormatOk(s)
  }

  // ---- validate ----------------------------------------------------------

  /**
   * One (name, tag) pair of the table fails when the tag is allowed, the
   * field is present and its value fails the tag's predicate.
   */
  predicate FieldFails(options: OptionSet, name: string, tag: string)
  {
    match ParseType(tag)
    case None => false
    case Some(t) => name in options && !Accepts(t, options[name])
  }

  /** The meaning of validate's answer: some pair of the table fails. */
  ghost predicate AnyFieldFails(options: OptionSet, types: map<string, string>)
  {
    exists name :: name in types && FieldFails(options, name, types[name])
  }

  /**
   * validate: walks the table, skips unknown tags and absent fields, and ORs
   * together the failures of the rest. True means "some field is invalid".
   */
  method Validate(options: OptionSet, types: map<string, string>) returns (invalid: bool)
    ensures invalid <==> AnyFieldFails(options, types)
  {
    invalid := false;
    var pending := types.Keys;
    while pending != {}
      invariant pending <= types.Keys
      invariant invalid <==> exists name :: name in types.Keys - pending && FieldFails(options, name, types[name])
      decreases pending
    {
      var name :| name in pending;
      pending := pending - {name};
      var tag := types[name];
      if !IsAllowType(tag) || name !in options {
        continue;
      }
      invalid := invalid || !Accepts(ParseType(tag).value, options[name]);
    }
  }

  // ---- properties of validate ---------------------------------------------

  /** An empty table, or an empty option set, is never invalid. */
  lemma NothingToCheck(options: OptionSet, types: map<string, string>)
    ensures !AnyFieldFails(options, map[])
    ensures !AnyFieldFails(map[], types)
  {
  }

  /** Adding a pair to the table ORs in that pair's failure, so it can only turn false into true. */
  lemma AddPair(options: OptionSet, types: map<string, string>, name: string, tag: string)
    requires name !in types
    ensures AnyFieldFails(options, types[name := tag]) <==> FieldFails(options, name, tag) || AnyFieldFails(options, types)
  {
    var types' := types[name := tag];
    if AnyFieldFails(options, types') && !FieldFails(options, name, tag) {
      var n :| n in types' && FieldFails(options, n, types'[n]);
      assert n != name && n in types && types'[n] == types[n];
    }
    if AnyFieldFails(options, types) {
      var n :| n in types && FieldFails(options, n, types[n]);
      assert n in types' && types'[n] == types[n];
    }
    assert name in types' && types'[name] == tag;
  }

  /** A pair with a tag outside the eleven, or naming an absent field, never changes the answer. */
  lemma SkippedPair(options: OptionSet, types: map<string, string>, name: string, tag: string)
    requires !IsAllowType(tag) || name !in options
    ensures AnyFieldFails(options, types[name := tag]) <==> AnyFieldFails(options, types - {name})
  {
    assert types[name := tag] == (types - {name})[name := tag];
    AddPair(options, types - {name}, name, tag);
  }

  /** A larger table can only be invalid more often. */
  lemma {:induction false} MoreTypesMoreFailures(options: OptionSet, types: map<string, string>, more: map<string, string>)
    requires forall name :: name in types ==> name in more && more[name] == types[name]
    ensures AnyFieldFails(options, types) ==> AnyFieldFails(options, more)
  {
    if AnyFieldFails(options, types) {
      var n :| n in types && FieldFails(options, n, types[n]);
      assert n in more && FieldFails(options, n, more[n]);
    }
  }

  /** A one-pair table is invalid exactly when that pair fails. */
  lemma SinglePair(options: OptionSet, name: string, tag: string)
    ensures AnyFieldFails(options, map[name := tag]) <==> FieldFails(options, name, tag)
  {
    AddPair(options, map[], name, tag);
  }

  // ---- properties of the predicates ---------------------------------------

  /** tag and title accept the same strings, up to and including length 254; text up to 65535. */
  lemma LengthLimits(s: string)
    ensures Accepts(Tag, Str(s)) <==> |s| <= 254
    ensures Accepts(Title, Str(s)) <==> Accepts(Tag, Str(s))
    ensures Accepts(Text, Str(s)) <==> |s| <= 65535
  {
  }

  /** yes and no are one predicate: exactly "yes" or "no". format is exactly "json" or "xml". */
  lemma LiteralSets(v: Value)
    ensures Accepts(Yes, v) <==> Accepts(No, v)
    ensures Accepts(Yes, v) <==> v == Str("yes") || v == Str("no")
    ensures Accepts(Format, v) <==> v == Str("json") || v == Str("xml")
  {
  }

  /** md5 is exactly 32 characters, every one a hexadecimal digit. */
  lemma Md5Shape(s: string)
    ensures Accepts(Md5, Str(s)) <==> |s| == 32 && forall i :: 0 <= i < |s| ==> IsXDigit(s[i])
  {
  }

  /** integer is 0..2^32 inclusive. */
  lemma IntegerRange(n: int)
    ensures Accepts(Integer, Int(n)) <==> 0 <= n <= 4294967296
  {
  }

  /** The first ':' of a URL is found wherever it is. */
  lemma FirstColon(url: string, k: nat)
    requires k < |url| && url[k] == ':' && ':' !in url[..k]
    ensures IndexOf(url, ':') == Some(k)
  {
  }

  /** A well-formed scheme followed by ':' is accepted exactly when the scheme is on the allow-list. */
  lemma UrlSchemePrefix(scheme: string, rest: string)
    requires 0 < |scheme| && forall i :: 0 <= i < |scheme| ==> IsSchemeChar(scheme[i])
    ensures UrlOk(scheme + ":" + rest)
            <==> scheme in AllowedSchemes && !PortLike(rest) && !HostMissing(scheme, rest)
  {
    var url := scheme + ":" + rest;
    assert url[|scheme|] == ':' && url[..|scheme|] == scheme && url[|scheme| + 1..] == rest;
    FirstColon(url, |scheme|);
  }

  /** Each allowed scheme is a non-empty run of scheme characters. */
  lemma AllowedSchemeWellFormed(scheme: string)
    requires scheme in AllowedSchemes
    ensures 0 < |scheme| && forall i :: 0 <= i < |scheme| ==> IsSchemeChar(scheme[i])
  {
  }

  /**
   * An allowed scheme followed by ':' makes an accepted URL unless what follows
   * reads as a port or opens an empty authority.
   */
  lemma UrlAcceptsAllowedScheme(scheme: string, rest: string)
    requires scheme in AllowedSchemes
    ensures UrlOk(scheme + ":" + rest) <==> !PortLike(rest) && !HostMissing(scheme, rest)
  {
    AllowedSchemeWellFormed(scheme);
    UrlSchemePrefix(scheme, rest);
  }

  /** An accepted URL starts with an allowed scheme and the first ':' of the text. */
  lemma UrlHasAllowedScheme(url: string)
    requires UrlOk(url)
    ensures exists k :: 0 < k < |url| && url[k] == ':' && ':' !in url[..k] && url[..k] in AllowedSchemes
  {
    var k := IndexOf(url, ':').value;
    assert url[k] == ':' && url[..k] in AllowedSchemes;
  }

  /** A URL whose text before the first ':' is not an allowed scheme is rejected. */
  lemma UrlRejectsOtherScheme(url: string, k: nat)
    requires IndexOf(url, ':') == Some(k) && url[..k] !in AllowedSchemes
    ensures !UrlOk(url)
  {
  }

  /** date accepts exactly the formatting of an in-range date. */
  lemma DateRoundTrip(s: string, d: DateFormat.Date)
    ensures DateOk(s) <==> DateFormat.ParseDate(s).Some?
    ensures DateFormat.ValidDate(d) ==> DateOk(DateFormat.FormatDate(d))
  {
    if DateFormat.ParseDate(s).Some? {
      DateFormat.FormatParseDate(s);
    }
    if DateFormat.ValidDate(d) {
      DateFormat.ParseFormatDate(d);
    }
  }

  /** datetime accepts exactly the formatting of an in-range timestamp. */
  lemma DatetimeRoundTrip(s: string, t: DateFormat.DateTime)
    ensures DatetimeOk(s) <==> DateFormat.ParseDateTime(s).Some?
    ensures DateFormat.ValidDateTime(t) ==> DatetimeOk(DateFormat.FormatDateTime(t))
  {
    if DateFormat.ParseDateTime(s).Some? {
      DateFormat.FormatParseDateTime(s);
    }
    if DateFormat.ValidDateTime(t) {
      DateFormat.ParseFormatDateTime(t);
    }
  }

  // ---- the cases the project's own tests check ----------------------------
  // Each test validates a one-field table, which by SinglePair fails exactly
  // when the field's predicate rejects the value; the cases are stated on the
  // predicates.

  lemma UnknownTagExample()
    ensures !AnyFieldFails(map["not_allow" := Str("xxx")], map["not_allow" := "not_allow_type"])
  {
    SinglePair(map["not_allow" := Str("xxx")], "not_allow", "not_allow_type");
  }

  lemma UrlWithoutSchemeExample()
    ensures !UrlOk("some_foo_bar")
  {
    var noScheme := "some_foo_bar";
    assert forall i :: 0 <= i < |noScheme| ==> noScheme[i] != ':';
  }

  // The URLs below are written as scheme, ':' and the rest, the split the
  // lemmas about schemes state their facts on.

  lemma UrlUnknownSchemeExample()
    ensures !UrlOk("scheme" + ":" + "//example.com/")
  {
    UrlSchemePrefix("scheme", "//example.com/");
  }

  lemma UrlHttpsExample()
    ensures UrlOk("https" + ":" + "//example.com/")
  {
    UrlAcceptsAllowedScheme("https", "//example.com/");
  }

  /** parse_url reads "http:80" as host and port, and fails on "http://". */
  lemma UrlPortAndEmptyHostExample()
    ensures !UrlOk("http" + ":" + "80")
    ensures !UrlOk("http" + ":" + "//")
    ensures UrlOk("file" + ":" + "///etc/hosts")
  {
    UrlAcceptsAllowedScheme("http", "80");
    UrlAcceptsAllowedScheme("http", "//");
    UrlAcceptsAllowedScheme("file", "///etc/hosts");
  }

  /** 11 December 2010 written as 'Y-m-d'. */
  lemma FormatExampleDate()
    ensures DateFormat.ValidDate(DateFormat.Date(2010, 12, 11))
    ensures DateFormat.FormatDate(DateFormat.Date(2010, 12, 11)) == "2010-12-11"
  {
    assert DateFormat.Pow10(4) == 10000;
    assert DateFormat.Pad(2, 1) == "2";
    assert DateFormat.Pad(20, 2) == "20";
    assert DateFormat.Pad(201, 3) == "201";
    assert DateFormat.Pad(2010, 4) == "2010";
    assert DateFormat.Pad(1, 1) == "1";
    assert DateFormat.Pad(12, 2) == "12";
    assert DateFormat.Pad(11, 2) == "11";
  }

  lemma DateAcceptedExample()
    ensures DateOk("2010-12-11")
  {
    var s := "2010-12-11";
    var d := DateFormat.Date(2010, 12, 11);
    FormatExampleDate();
    DateRoundTrip(s, d);
  }

  lemma DateRejectedExample()
    ensures !DateOk("2010/12/11")
  {
    var s := "2010/12/11";
    assert s[4] == '/';
  }

  /** 19:48:02 written as 'H:i:s'. */
  lemma FormatExampleClock()
    ensures DateFormat.Pad(19, 2) == "19" && DateFormat.Pad(48, 2) == "48" && DateFormat.Pad(2, 2) == "02"
  {
    assert DateFormat.Pad(1, 1) == "1";
    assert DateFormat.Pad(4, 1) == "4";
    assert DateFormat.Pad(0, 1) == "0";
  }

  /** 11 December 2010, 19:48:02 written as 'Y-m-d\TH:i:s\Z'. */
  lemma FormatExampleDateTime()
    ensures DateFormat.ValidDateTime(DateFormat.DateTime(DateFormat.Date(2010, 12, 11), 19, 48, 2))
    ensures DateFormat.FormatDateTime(DateFormat.DateTime(DateFormat.Date(2010, 12, 11), 19, 48, 2))
            == "2010-12-11T19:48:02Z"
  {
    var d := DateFormat.Date(2010, 12, 11);
    FormatExampleDate();
    FormatExampleClock();
    DateFormat.FormatDateTimeParts(d, 19, 48, 2);
    TimestampPieces();
  }

  lemma TimestampPieces()
    ensures "2010-12-11" + "T" + ("19" + ":" + "48" + ":" + "02") + "Z" == "2010-12-11T19:48:02Z"
  {
  }

  lemma DatetimeAcceptedExample()
    ensures DatetimeOk("2010-12-11T19:48:02Z")
  {
    var s := "2010-12-11T19:48:02Z";
    FormatExampleDateTime();
    DatetimeRoundTrip(s, DateFormat.DateTime(DateFormat.Date(2010, 12, 11), 19, 48, 2));
  }

  lemma DatetimeRejectedExample()
    ensures !DatetimeOk("2010-12-11 19:48:02")
  {
    var s := "2010-12-11 19:48:02";
    assert |s| == 19;
  }

  lemma LiteralExamples()
    ensures !YesOk("y") && YesOk("yes")
    ensures !NoOk("n") && NoOk("no")
    ensures !FormatOk("html") && FormatOk("json")
    ensures !IntegerOk(-1) && !IntegerOk(4294967297) && IntegerOk(100)
  {
  }

  lemma Md5ShortExample()
    ensures !Md5Ok("0123456789ABCEF")
  {
  }

  lemma Md5NonHexExample()
    ensures !Md5Ok("0123456789ABCEFGhijklmnopqrstuwx")
  {
    var s := "0123456789ABCEFGhijklmnopqrstuwx";
    assert !IsXDigit(s[15]);
  }

  lemma Md5HexExample()
    ensures Md5Ok("0123456789ABCEF01234567890ABCDEF")
  {
    var s := "0123456789ABCEF01234567890ABCDEF";
    assert forall i :: 0 <= i < |s| ==> IsXDigit(s[i]);
  }
}
