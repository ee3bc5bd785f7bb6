/**
 * The validation error: it holds, per field name, the list of type tags that
 * field violated, and a table from tag to human-readable text, and renders
 * each field's tags as their texts.
 */
module OptionException {
  import opened Wrappers
  import OptionValidation

  // The TYPE_* constants: the eleven tag names.
  const TypeTag: string := "tag"
  const TypeUrl: string := "url"
  const TypeTitle: string := "title"
  const TypeText: string := "text"
  const TypeDatetime: string := "datetime"
  const TypeDate: string := "date"
  const TypeYes: string := "yes"
  const TypeNo: string := "no"
  const TypeMd5: string := "md5"
  const TypeInt: string := "integer"
  const TypeFormat: string := "format"

  /** The text of a tag the message table does not know. */
  const Fallback: string := "An error occurred during validation"

  /** The default text of each allowed tag. */
  function DefaultText(tag: string): string
  {
    if tag == TypeTag then "up to 255 characters. May not contain commas or whitespace"
    else if tag == TypeUrl then "as defined by RFC 3986. Allowed schemes are http, https, javascript, mailto, ftp and file"
    else if tag == TypeTitle then "up to 255 characters long"
    else if tag == TypeText then " up to 65536 characters long"
    else if tag == TypeDatetime then "UTC timestamp in this format: 2010-12-11T19:48:02Z"
    else if tag == TypeDate then "UTC date in this format: 2010-12-11"
    else if tag == TypeYes || tag == TypeNo then "the literal string 'yes' or 'no'"
    else if tag == TypeMd5 then "32 character hexadecimal MD5 hash"
    else if tag == TypeInt then "integer in the range 0..2^32"
    else "the literal string 'json' or 'xml'"
  }

  /** The table installed when the caller supplies none. */
  function DefaultMessages(): map<string, string>
  {
    map tag | tag in OptionValidation.AllowedTypes :: DefaultText(tag)
  }

  /** getErrorMessage: the table's text for the tag, or the fallback text. */
  function ErrorMessage(messages: map<string, string>, tag: string): string
  {
    if tag in messages then messages[tag] else Fallback
  }

  class OptionException {
    const errors: map<string, seq<string>>
    const messages: map<string, string>

    /** A missing table (PHP null) selects the default table; a supplied one replaces it whole. */
    constructor (errors: map<string, seq<string>>, messages: Option<map<string, string>>)
      ensures this.errors == errors
      ensures this.messages == if messages.Some? then messages.value else DefaultMessages()
    {
      this.errors := errors;
      this.messages := if messages.Some? then messages.value else DefaultMessages();
    }

    /** texts is tags rendered one for one, in the same order. */
    predicate Renders(texts: seq<string>, tags: seq<string>)
    {
      |texts| == |tags| && forall i :: 0 <= i < |tags| ==> texts[i] == ErrorMessage(messages, tags[i])
    }

    /** rendered has exactly the fields of errors, each rendered. */
    predicate RendersAll(rendered: map<string, seq<string>>)
    {
      rendered.Keys == errors.Keys && forall name :: name in rendered ==> Renders(rendered[name], errors[name])
    }

    /** getErrorMessages: every field's tags as texts, fields and order kept. */
    method GetErrorMessages() returns (rendered: map<string, seq<string>>)
      ensures rendered.Keys == errors.Keys
      ensures forall name :: name in rendered ==> Renders(rendered[name], errors[name])
    {
      rendered := map[];
      var pending := errors.Keys;
      while pending != {}
        invariant pending <= errors.Keys
        invariant rendered.Keys == errors.Keys - pending
        invariant forall name :: name in rendered ==> Renders(rendered[name], errors[name])
        decreases pending
      {
        var name :| name in pending;
        var tags := errors[name];
        var texts := [];
        for i := 0 to |tags|
          invariant Renders(texts, tags[..i])
        {
          texts := texts + [ErrorMessage(messages, tags[i])];
        }
        assert tags[..|tags|] == tags;
        rendered := rendered[name := texts];
        pending := pending - {name};
      }
    }
  }

  /**
   * What getErrorMessages returns is determined by the fields alone, so two
   * calls (which change neither field) return equal maps.
   */
  lemma {:induction false} RenderingIsUnique(e: OptionException, r1: map<string, seq<string>>, r2: map<string, seq<string>>)
    requires e.RendersAll(r1) && e.RendersAll(r2)
    ensures r1 == r2
  {
    forall name | name in r1
      ensures r1[name] == r2[name]
    {
      assert e.Renders(r1[name], e.errors[name]) && e.Renders(r2[name], e.errors[name]);
    }
  }

  /** The TYPE_* constants are exactly the tags the validator allows, and the default table covers them. */
  lemma TypeConstantsAreAllowedTypes()
    ensures {TypeTag, TypeUrl, TypeTitle, TypeText, TypeDatetime, TypeDate, TypeYes, TypeNo, TypeMd5, TypeInt, TypeFormat}
            == set t | t in OptionValidation.AllowedTypes
    ensures DefaultMessages().Keys == set t | t in OptionValidation.AllowedTypes
  {
  }

  /** With the default table, yes and no read the same, and no allowed tag falls back. */
  lemma DefaultTableTexts(tag: string)
    ensures ErrorMessage(DefaultMessages(), TypeYes) == ErrorMessage(DefaultMessages(), TypeNo)
    ensures OptionValidation.IsAllowType(tag) ==> ErrorMessage(DefaultMessages(), tag) != Fallback
    ensures !OptionValidation.IsAllowType(tag) ==> ErrorMessage(DefaultMessages(), tag) == Fallback
  {
  }

  /** A supplied table is not merged with the default: a tag it lacks falls back. */
  lemma SuppliedTableReplacesDefault(messages: map<string, string>, tag: string)
    requires tag !in messages
    ensures ErrorMessage(messages, tag) == Fallback
    ensures tag in DefaultMessages() ==> ErrorMessage(messages, tag) != ErrorMessage(DefaultMessages(), tag)
  {
  }

  /** The project's own test cases for getErrorMessages. */
  method RenderingTwoTagsExample()
  {
    var e := new OptionException(map["tag" := [TypeTag, TypeMd5]], None);
    var r := e.GetErrorMessages();
    assert e.Renders(r["tag"], [TypeTag, TypeMd5]);
    assert ErrorMessage(e.messages, TypeTag) == "up to 255 characters. May not contain commas or whitespace";
    assert ErrorMessage(e.messages, TypeMd5) == "32 character hexadecimal MD5 hash";
    assert r["tag"] == ["up to 255 characters. May not contain commas or whitespace", "32 character hexadecimal MD5 hash"];
    assert r == map["tag" := ["up to 255 characters. May not contain commas or whitespace", "32 character hexadecimal MD5 hash"]];
  }

  method RenderingTwoFieldsExample()
  {
    var e := new OptionException(map["meme" := [TypeTitle], "yesno" := [TypeNo]], None);
    var r := e.GetErrorMessages();
    assert e.Renders(r["meme"], [TypeTitle]) && e.Renders(r["yesno"], [TypeNo]);
    assert r["meme"] == ["up to 255 characters long"];
    assert r["yesno"] == ["the literal string 'yes' or 'no'"];
    assert r == map["meme" := ["up to 255 characters long"], "yesno" := ["the literal string 'yes' or 'no'"]];
  }

  method RenderingUnknownTagExample()
  {
    var e := new OptionException(map["foo" := ["bar"]], None);
    var r := e.GetErrorMessages();
    assert e.Renders(r["foo"], ["bar"]);
    assert r["foo"] == [Fallback];
    assert r == map["foo" := [Fallback]];
  }
}
