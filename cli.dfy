/**
 * `fmt_item` of the command line: normalise one log item in place and lay it
 * out as text.
 */
module Cli {
  import opened Wrappers
  import opened JsonValue

  /** The characters Python's `str.strip()` removes: those for which `str.isspace()` holds. */
  predicate IsSpace(c: char)
  {
    var n := c as int;
    || 0x09 <= n <= 0x0D || 0x1C <= n <= 0x20 || n == 0x85 || n == 0xA0 || n == 0x1680
    || 0x2000 <= n <= 0x200A || n == 0x2028 || n == 0x2029 || n == 0x202F || n == 0x205F
    || n == 0x3000
  }

  /** `s.lstrip()`: `s` without its leading whitespace. */
  function StripLeft(s: string): string
    decreases |s|
  {
    if s != [] && IsSpace(s[0]) then StripLeft(s[1..]) else s
  }

  /** `s.rstrip()`: `s` without its trailing whitespace. */
  function StripRight(s: string): string
    decreases |s|
  {
    if s != [] && IsSpace(s[|s| - 1]) then StripRight(s[..|s| - 1]) else s
  }

  /** `lstrip()` keeps a suffix, drops only whitespace, and stops at a non-whitespace character. */
  lemma {:induction false} StripLeftShape(s: string)
    ensures var r := StripLeft(s);
      && |r| <= |s| && r == s[|s| - |r|..]
      && (forall k :: 0 <= k < |s| - |r| ==> IsSpace(s[k]))
      && (r != [] ==> !IsSpace(r[0]))
    decreases |s|
  {
    if s != [] && IsSpace(s[0]) {
      StripLeftShape(s[1..]);
    }
  }

  /** `rstrip()` keeps a prefix, drops only whitespace, and stops at a non-whitespace character. */
  lemma {:induction false} StripRightShape(s: string)
    ensures var r := StripRight(s);
      && |r| <= |s| && r == s[..|r|]
      && (forall k :: |r| <= k < |s| ==> IsSpace(s[k]))
      && (r != [] ==> !IsSpace(r[|r| - 1]))
    decreases |s|
  {
    if s != [] && IsSpace(s[|s| - 1]) {
      StripRightShape(s[..|s| - 1]);
    }
  }

  /** `s.strip()`: `s` without its leading and its trailing whitespace. */
  function Strip(s: string): string
  {
    StripRight(StripLeft(s))
  }

  /**
   * What `strip()` leaves is the part of `s` between its leading and its
   * trailing whitespace, and it neither starts nor ends with whitespace.
   */
  lemma StripShape(s: string)
    ensures var r, i := Strip(s), |s| - |StripLeft(s)|;
      && 0 <= i && i + |r| <= |s| && r == s[i..i + |r|]
      && (forall k :: 0 <= k < i ==> IsSpace(s[k]))
      && (forall k :: i + |r| <= k < |s| ==> IsSpace(s[k]))
      && (r != [] ==> !IsSpace(r[0]) && !IsSpace(r[|r| - 1]))
  {
    var l := StripLeft(s);
    var r := StripRight(l);
    var i := |s| - |l|;
    StripLeftShape(s);
    StripRightShape(l);
    assert r == s[i..i + |r|] by {
      assert l == s[i..];
      assert r == l[..|r|];
    }
    forall k | i + |r| <= k < |s|
      ensures IsSpace(s[k])
    {
      assert s[k] == l[k - i];
    }
    if r != [] {
      assert r[0] == l[0];
    }
  }

  /** Stripping twice is stripping once. */
  lemma StripIdempotent(s: string)
    ensures Strip(Strip(s)) == Strip(s)
  {
    var r := Strip(s);
    StripShape(s);
    assert StripLeft(r) == r;
    assert StripRight(r) == r;
  }

  /** `c * n`. */
  function Repeat(c: char, n: nat): (r: string)
    ensures |r| == n && forall k :: 0 <= k < n ==> r[k] == c
  {
    if n == 0 then [] else Repeat(c, n - 1) + [c]
  }

  const Width := 80

  /** A rule of 80 copies of `c`, as `'=' * 80` and `'-' * 80`. */
  function Rule(c: char): string
  {
    Repeat(c, Width)
  }

  /** `fmt_item`'s result: the value passed through, the text, or an exception. */
  datatype Formatted = Unchanged(value: Json) | Text(text: string) | FormatRaised

  /**
   * `time_event` after the `try` block: its `strptime`/`strftime` conversion
   * when the value is a string the conversion accepts, and as it was otherwise.
   */
  function ConvertedTime(v: Json, reformat: string -> Option<string>): Json
  {
    if v.Str? && reformat(v.s).Some? then Str(reformat(v.s).value) else v
  }

  /** The fields the layout reads, with a string `after_event` for `strip()`. */
  predicate Renderable(f: map<string, Json>)
  {
    && "after_event" in f && f["after_event"].Str?
    && "time_event" in f && "time_report" in f && "operator" in f
    && "username_report" in f && "event" in f
  }

  /** The header line: `[time_event - time_report] operator --> username_report [id]`. */
  function HeaderLine(u: map<string, Json>, showObject: map<string, Json> -> string): string
    requires Renderable(u) && "id" in u
  {
    "[" + Show(u["time_event"], showObject) + " - " + Show(u["time_report"], showObject) + "] "
    + Show(u["operator"], showObject) + " --> " + Show(u["username_report"], showObject)
    + " [" + Show(u["id"], showObject) + "]\n"
  }

  /** The `-` rule and the after-event, or nothing when the after-event is empty. */
  function AfterSection(after: string): (r: string)
    ensures r == "" <==> after == ""
  {
    if after == "" then "" else Rule('-') + "\n" + after + "\n"
  }

  /**
   * The text of a normalised item: the header line, a rule of `=`, the event,
   * the optional after-event section, and a closing rule of `=`.
   */
  function Layout(u: map<string, Json>, showObject: map<string, Json> -> string): string
    requires Renderable(u) && "id" in u
  {
    HeaderLine(u, showObject) + Rule('=') + "\n" + Show(u["event"], showObject) + "\n"
    + AfterSection(u["after_event"].s) + Rule('=') + "\n"
  }

  /**
   * The text opens with the header line, a rule of `=`, the event and a line
   * break; then comes the after-event section; it ends with a rule of `=` and
   * a line break.
   */
  lemma LayoutShape(u: map<string, Json>, showObject: map<string, Json> -> string)
    requires Renderable(u) && "id" in u
    ensures var r := Layout(u, showObject);
      var head := HeaderLine(u, showObject) + Rule('=') + "\n" + Show(u["event"], showObject) + "\n";
      && |r| == |head| + |AfterSection(u["after_event"].s)| + Width + 1
      && r[..|head|] == head
      && r[|head|..|r| - Width - 1] == AfterSection(u["after_event"].s)
      && r[|r| - Width - 1..] == Rule('=') + "\n"
  {
    var head := HeaderLine(u, showObject) + Rule('=') + "\n" + Show(u["event"], showObject) + "\n";
    var tail := Rule('=') + "\n";
    assert Layout(u, showObject) == head + AfterSection(u["after_event"].s) + tail;
    ConcatParts(head, AfterSection(u["after_event"].s), tail);
  }

  /** The three parts of a concatenation are its slices. */
  lemma ConcatParts(a: string, b: string, c: string)
    ensures var r := a + b + c;
      && r[..|a|] == a && r[|a|..|a| + |b|] == b && r[|a| + |b|..] == c
  {
    var r := a + b + c;
    assert r[..|a|] == a;
    assert r[|a|..|a| + |b|] == b;
    assert r[|a| + |b|..] == c;
  }

  /**
   * The item dict after `fmt_item`'s in-place updates: `id` set to `itemId`
   * only when absent, `time_event` converted when the conversion succeeds, and
   * a string `after_event` stripped; nothing else changes.
   */
  function Normalized(f: map<string, Json>, itemId: Json, reformat: string -> Option<string>)
    : (u: map<string, Json>)
    ensures u.Keys == f.Keys + {"id"}
    ensures u["id"] == if "id" in f then f["id"] else itemId
    ensures "time_event" in f ==> u["time_event"] == ConvertedTime(f["time_event"], reformat)
    ensures "after_event" in f && f["after_event"].Str? ==>
      u["after_event"] == Str(Strip(f["after_event"].s))
    ensures "after_event" in f && !f["after_event"].Str? ==> u["after_event"] == f["after_event"]
    ensures forall k :: k in f && k != "id" && k != "time_event" && k != "after_event" ==> u[k] == f[k]
  {
    var withId := if "id" in f then f else f["id" := itemId];
    var withTime := if "time_event" in withId
                    then withId["time_event" := ConvertedTime(withId["time_event"], reformat)]
                    else withId;
    if "after_event" in withTime && withTime["after_event"].Str?
    then withTime["after_event" := Str(Strip(withTime["after_event"].s))]
    else withTime
  }

  /** Normalising neither adds nor removes a field the layout needs. */
  lemma NormalizedRenderable(f: map<string, Json>, itemId: Json, reformat: string -> Option<string>)
    ensures var u := Normalized(f, itemId, reformat);
      "id" in u && (Renderable(u) <==> Renderable(f))
  {
  }

  /**
   * `fmt_item`: anything but a dict comes back unchanged. A dict is normalised
   * in place (`updated` is the dict afterwards, also when it then raises) and
   * laid out; a missing field, or an `after_event` that is not a string,
   * raises. `reformat` stands for the date conversion, `showObject` for
   * `str()` of a nested dict.
   */
  method FmtItem(item: Json, itemId: Json, reformat: string -> Option<string>,
                 showObject: map<string, Json> -> string)
    returns (out: Formatted, updated: Json)
    ensures !item.Obj? ==> out == Unchanged(item) && updated == item
    ensures item.Obj? ==> updated == Obj(Normalized(item.fields, itemId, reformat)) && !out.Unchanged?
    ensures out.FormatRaised? <==> item.Obj? && !Renderable(item.fields)
    ensures out.Text? ==> item.Obj? && Renderable(updated.fields) && out.text == Layout(updated.fields, showObject)
  {
    if !item.Obj? {
      return Unchanged(item), item;
    }
    var fields := item.fields;
    if "id" !in fields {
      fields := fields["id" := itemId];
    }
    if "time_event" in fields {
      fields := fields["time_event" := ConvertedTime(fields["time_event"], reformat)];
    }
    NormalizedRenderable(item.fields, itemId, reformat);
    if !("after_event" in fields && fields["after_event"].Str?) {
      assert fields == Normalized(item.fields, itemId, reformat);
      return FormatRaised, Obj(fields);
    }
    fields := fields["after_event" := Str(Strip(fields["after_event"].s))];
    assert fields == Normalized(item.fields, itemId, reformat);
    if !Renderable(fields) {
      return FormatRaised, Obj(fields);
    }
    var text := Render(fields, showObject);
    return Text(text), Obj(fields);
  }

  /** The layout half of `fmt_item`: `res` built by successive appends. */
  method Render(fields: map<string, Json>, showObject: map<string, Json> -> string) returns (res: string)
    requires Renderable(fields) && "id" in fields
    ensures res == Layout(fields, showObject)
  {
    res := HeaderLine(fields, showObject) + Rule('=') + "\n" + Show(fields["event"], showObject) + "\n";
    var after := fields["after_event"].s;
    if after != "" {
      res := res + Rule('-') + "\n" + after + "\n";
    }
    res := res + Rule('=') + "\n";
  }

  /** The `-` section is shown exactly when `after_event` holds a non-whitespace character. */
  lemma AfterSectionShown(afterEvent: string)
    ensures Strip(afterEvent) != "" <==> exists k :: 0 <= k < |afterEvent| && !IsSpace(afterEvent[k])
  {
    var r, i := Strip(afterEvent), |afterEvent| - |StripLeft(afterEvent)|;
    StripShape(afterEvent);
    if r != [] {
      assert afterEvent[i] == r[0];
    } else {
      forall k | 0 <= k < |afterEvent|
        ensures IsSpace(afterEvent[k])
      {
        if k >= i {
          assert i + |r| <= k;
        }
      }
    }
  }
}
