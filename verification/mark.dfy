/**
 * The Mark record of the trade database: a dated closing or intra-day value for an
 * equity, with its validation rules and the one-line error report shown to users.
 * Ruby 1.8 and Rails 2 semantics: `errors[attr]` is nil, a single message, or an
 * Array of messages when the attribute has several, and `blank?` on a String means
 * "only whitespace".
 */
module Marks {
  import opened Wrappers

  /** Calendar dates as day numbers; `today` is always passed in. */
  type Date = int
  /** Decimal mark values as fixed-point integers. */
  type Price = int

  datatype MSymbol = MSymbol(root: Option<string>)
  datatype Equity = Equity(mSymbol: Option<MSymbol>)

  /**
   * The attributes errors are recorded against. Rails keys errors by the attribute's
   * name, so an `OtherAttr` stands for a name other than the three of `IsCoreName`.
   */
  datatype Attribute = SymbolAttr | MarkValueAttr | MarkDateAttr | OtherAttr(name: string)

  /** The names of the three attributes the Mark record validates. */
  predicate IsCoreName(name: string)
  {
    name == "symbol" || name == "mark_value" || name == "mark_date"
  }
  /** One `errors.add(attribute, message)`; the error collection is the list of these, oldest first. */
  datatype ErrorEntry = ErrorEntry(attribute: Attribute, message: string)

  const MarkValueMessage: string := "should be a zero or positive value."
  const SymbolMessage: string := "cannot be empty."
  const MarkDateMessage: string := "should not be in the future."

  /** The characters Ruby 1.8's `\s` matches. */
  predicate IsRubyWhitespace(c: char)
  {
    c == ' ' || c == '\t' || c == '\n' || c == '\r' || c == '\U{000C}'
  }

  /** `String#blank?`: no character outside whitespace. */
  predicate IsBlank(s: string)
  {
    forall i | 0 <= i < |s| :: IsRubyWhitespace(s[i])
  }

  /** The value check: present and not negative. */
  function ValueErrors(markValue: Option<Price>): seq<ErrorEntry>
  {
    if markValue.Some? && markValue.value >= 0 then [] else [ErrorEntry(MarkValueAttr, MarkValueMessage)]
  }

  /** The symbol check: the equity's symbol root is present and not blank. */
  function SymbolErrors(root: Option<string>): seq<ErrorEntry>
  {
    if root.Some? && !IsBlank(root.value) then [] else [ErrorEntry(SymbolAttr, SymbolMessage)]
  }

  /** The date check: present and not after today. */
  function DateErrors(markDate: Option<Date>, today: Date): seq<ErrorEntry>
  {
    if markDate.Some? && markDate.value <= today then [] else [ErrorEntry(MarkDateAttr, MarkDateMessage)]
  }

  /** The errors `validate` adds, in the order it adds them. */
  function ValidationErrors(markValue: Option<Price>, root: Option<string>, markDate: Option<Date>, today: Date)
    : seq<ErrorEntry>
  {
    ValueErrors(markValue) + SymbolErrors(root) + DateErrors(markDate, today)
  }

  /** Each check adds its message exactly when it fails, nothing else is added, and no attribute twice. */
  lemma ValidationErrorsChecks(markValue: Option<Price>, root: Option<string>, markDate: Option<Date>, today: Date)
    ensures var added := ValidationErrors(markValue, root, markDate, today);
      && (ErrorEntry(MarkValueAttr, MarkValueMessage) in added <==> !(markValue.Some? && markValue.value >= 0))
      && (ErrorEntry(SymbolAttr, SymbolMessage) in added <==> (root.None? || IsBlank(root.value)))
      && (ErrorEntry(MarkDateAttr, MarkDateMessage) in added <==> !(markDate.Some? && markDate.value <= today))
      && (forall e | e in added ::
           e in {ErrorEntry(MarkValueAttr, MarkValueMessage), ErrorEntry(SymbolAttr, SymbolMessage),
                 ErrorEntry(MarkDateAttr, MarkDateMessage)})
      && (forall i, j | 0 <= i < j < |added| :: added[i].attribute != added[j].attribute)
  {
    var v, s, d := ValueErrors(markValue), SymbolErrors(root), DateErrors(markDate, today);
    var added := v + s + d;
    assert forall e :: e in added <==> e in v || e in s || e in d;
    forall i, j | 0 <= i < j < |added| ensures added[i].attribute != added[j].attribute {
      assert added[i] in v + s + d && added[j] in v + s + d;
      if i < |v| {
        assert added[i] in v;
        assert added[j] in s || added[j] in d;
      } else if i < |v| + |s| {
        assert added[i] in s;
        assert added[j] == d[j - |v| - |s|];
      }
    }
  }

  /** The messages recorded for one attribute, oldest first. */
  function Messages(errors: seq<ErrorEntry>, a: Attribute): (msgs: seq<string>)
    // `errors[a]` is nil exactly when nothing was added for `a`.
    ensures msgs == [] <==> forall e | e in errors :: e.attribute != a
  {
    if errors == [] then []
    else if errors[0].attribute == a then [errors[0].message] + Messages(errors[1..], a)
    else Messages(errors[1..], a)
  }

  /** `errors[a]` holds exactly the messages added for `a`. */
  lemma {:induction false} MessagesMembers(errors: seq<ErrorEntry>, a: Attribute, m: string)
    ensures m in Messages(errors, a) <==> ErrorEntry(a, m) in errors
  {
    if errors != [] {
      MessagesMembers(errors[1..], a, m);
      assert ErrorEntry(a, m) in errors <==> ErrorEntry(a, m) == errors[0] || ErrorEntry(a, m) in errors[1..];
    }
  }

  lemma {:induction false} MessagesAppend(e1: seq<ErrorEntry>, e2: seq<ErrorEntry>, a: Attribute)
    ensures Messages(e1 + e2, a) == Messages(e1, a) + Messages(e2, a)
  {
    if e1 == [] {
      assert e1 + e2 == e2;
    } else {
      assert (e1 + e2)[1..] == e1[1..] + e2;
      MessagesAppend(e1[1..], e2, a);
    }
  }

  /** `!errors[a].blank?`: a single non-blank message, or an Array of several. */
  predicate Shown(msgs: seq<string>)
  {
    |msgs| > 1 || (|msgs| == 1 && !IsBlank(msgs[0]))
  }

  /** Ruby 1.8's `Array#to_s`: the elements joined with nothing between them. */
  function Concat(msgs: seq<string>): string
  {
    if msgs == [] then "" else msgs[0] + Concat(msgs[1..])
  }

  /** `"#{errors[a]}"`: the message itself, or all of them run together when there are several. */
  function Interpolated(msgs: seq<string>): string
  {
    if |msgs| == 1 then msgs[0] else Concat(msgs)
  }

  function Section(heading: string, shown: bool, text: string): string
  {
    if shown then heading + text + " " else ""
  }

  function SymbolSection(errors: seq<ErrorEntry>): string
  {
    var msgs := Messages(errors, SymbolAttr);
    Section("Symbol ", Shown(msgs), Interpolated(msgs))
  }

  /** Only the first mark_value message is printed, whether there is one or several. */
  function ValueSection(errors: seq<ErrorEntry>): string
  {
    var msgs := Messages(errors, MarkValueAttr);
    Section("Value ", Shown(msgs), if Shown(msgs) then msgs[0] else "")
  }

  function DateSection(errors: seq<ErrorEntry>): string
  {
    var msgs := Messages(errors, MarkDateAttr);
    Section("Date ", Shown(msgs), Interpolated(msgs))
  }

  /** The error report: braces around the Symbol, Value and Date sections, in that order. */
  function PrettyErrors(errors: seq<ErrorEntry>): (report: string)
    ensures |report| >= 2 && report[0] == '{' && report[|report| - 1] == '}'
  {
    "{" + SymbolSection(errors) + ValueSection(errors) + DateSection(errors) + "}"
  }

  /** The report is exactly `{}` when no section is shown, in particular with no errors. */
  lemma PrettyErrorsEmpty(errors: seq<ErrorEntry>)
    ensures PrettyErrors(errors) == "{}" <==>
      !Shown(Messages(errors, SymbolAttr)) && !Shown(Messages(errors, MarkValueAttr))
      && !Shown(Messages(errors, MarkDateAttr))
    ensures errors == [] ==> PrettyErrors(errors) == "{}"
  {
    var sym, value, date := SymbolSection(errors), ValueSection(errors), DateSection(errors);
    SectionEmpty("Symbol ", Shown(Messages(errors, SymbolAttr)), Interpolated(Messages(errors, SymbolAttr)));
    SectionEmpty("Value ", Shown(Messages(errors, MarkValueAttr)),
      if Shown(Messages(errors, MarkValueAttr)) then Messages(errors, MarkValueAttr)[0] else "");
    SectionEmpty("Date ", Shown(Messages(errors, MarkDateAttr)), Interpolated(Messages(errors, MarkDateAttr)));
    Braced(sym + value + date);
    assert |sym + value + date| == |sym| + |value| + |date|;
    if errors == [] {
      assert Messages(errors, SymbolAttr) == [] && Messages(errors, MarkValueAttr) == [];
      assert Messages(errors, MarkDateAttr) == [];
    }
  }

  /** A section is left out exactly when it is not shown. */
  lemma SectionEmpty(heading: string, shown: bool, text: string)
    requires heading != ""
    ensures Section(heading, shown, text) == "" <==> !shown
  {
    if shown {
      assert |Section(heading, shown, text)| >= |heading| > 0;
    }
  }

  /** Braces around a middle part: the result is `{}` exactly when the middle is empty. */
  lemma Braced(middle: string)
    ensures var report := "{" + middle + "}";
      && |report| >= 2 && report[0] == '{' && report[|report| - 1] == '}'
      && (report == "{}" <==> middle == "")
  {
    var report := "{" + middle + "}";
    assert |report| == |middle| + 2;
    if report == "{}" {
      assert |middle| == 0;
    }
  }

  /** Errors recorded against any other attribute never reach the report. */
  lemma PrettyErrorsIgnoresOtherAttributes(errors: seq<ErrorEntry>, name: string, message: string)
    requires !IsCoreName(name)
    ensures PrettyErrors(errors + [ErrorEntry(OtherAttr(name), message)]) == PrettyErrors(errors)
  {
    var extra := [ErrorEntry(OtherAttr(name), message)];
    var more := errors + extra;
    forall a | a in {SymbolAttr, MarkValueAttr, MarkDateAttr}
      ensures Messages(more, a) == Messages(errors, a)
    {
      MessagesAppend(errors, extra, a);
      assert Messages(extra, a) == [];
    }
    assert SymbolSection(more) == SymbolSection(errors);
    assert ValueSection(more) == ValueSection(errors);
    assert DateSection(more) == DateSection(errors);
  }

  /** Once the Value section is shown, further mark_value messages leave the report unchanged. */
  lemma PrettyErrorsPrintsFirstValueOnly(errors: seq<ErrorEntry>, message: string)
    requires Shown(Messages(errors, MarkValueAttr))
    ensures PrettyErrors(errors + [ErrorEntry(MarkValueAttr, message)]) == PrettyErrors(errors)
  {
    var extra := [ErrorEntry(MarkValueAttr, message)];
    var more := errors + extra;
    forall a | a in {SymbolAttr, MarkDateAttr}
      ensures Messages(more, a) == Messages(errors, a)
    {
      MessagesAppend(errors, extra, a);
      assert Messages(extra, a) == [];
    }
    MessagesAppend(errors, extra, MarkValueAttr);
    var msgs := Messages(errors, MarkValueAttr);
    assert Messages(more, MarkValueAttr) == msgs + [message];
    assert (msgs + [message])[0] == msgs[0];
    assert SymbolSection(more) == SymbolSection(errors);
    assert ValueSection(more) == ValueSection(errors);
    assert DateSection(more) == DateSection(errors);
  }

  /** Messages of the validation errors of one attribute: the single failed check's message, or none. */
  lemma ValidationMessages(markValue: Option<Price>, root: Option<string>, markDate: Option<Date>, today: Date)
    ensures Messages(ValidationErrors(markValue, root, markDate, today), MarkValueAttr) ==
      (if markValue.Some? && markValue.value >= 0 then [] else [MarkValueMessage])
    ensures Messages(ValidationErrors(markValue, root, markDate, today), SymbolAttr) ==
      (if root.Some? && !IsBlank(root.value) then [] else [SymbolMessage])
    ensures Messages(ValidationErrors(markValue, root, markDate, today), MarkDateAttr) ==
      (if markDate.Some? && markDate.value <= today then [] else [MarkDateMessage])
  {
    var v, s, d := ValueErrors(markValue), SymbolErrors(root), DateErrors(markDate, today);
    MessagesOfThree(v, s, d, MarkValueAttr);
    MessagesOfThree(v, s, d, SymbolAttr);
    MessagesOfThree(v, s, d, MarkDateAttr);
  }

  lemma MessagesOfThree(v: seq<ErrorEntry>, s: seq<ErrorEntry>, d: seq<ErrorEntry>, a: Attribute)
    ensures Messages(v + s + d, a) == Messages(v, a) + Messages(s, a) + Messages(d, a)
  {
    MessagesAppend(v + s, d, a);
    MessagesAppend(v, s, a);
  }

  /** The report of a freshly validated mark: the failed checks in Symbol, Value, Date order. */
  lemma ValidatedReport(markValue: Option<Price>, root: Option<string>, markDate: Option<Date>, today: Date)
    ensures PrettyErrors(ValidationErrors(markValue, root, markDate, today)) ==
      "{"
      + (if root.Some? && !IsBlank(root.value) then "" else "Symbol " + SymbolMessage + " ")
      + (if markValue.Some? && markValue.value >= 0 then "" else "Value " + MarkValueMessage + " ")
      + (if markDate.Some? && markDate.value <= today then "" else "Date " + MarkDateMessage + " ")
      + "}"
  {
    var all := ValidationErrors(markValue, root, markDate, today);
    ValidationMessages(markValue, root, markDate, today);
    assert !IsBlank(SymbolMessage) by { assert !IsRubyWhitespace(SymbolMessage[0]); }
    assert !IsBlank(MarkValueMessage) by { assert !IsRubyWhitespace(MarkValueMessage[0]); }
    assert !IsBlank(MarkDateMessage) by { assert !IsRubyWhitespace(MarkDateMessage[0]); }
    assert SymbolSection(all) == (if root.Some? && !IsBlank(root.value) then "" else "Symbol " + SymbolMessage + " ");
    assert ValueSection(all) == (if markValue.Some? && markValue.value >= 0 then "" else "Value " + MarkValueMessage + " ");
    assert DateSection(all) == (if markDate.Some? && markDate.value <= today then "" else "Date " + MarkDateMessage + " ");
  }

  lemma AppendThree(e: seq<ErrorEntry>, v: seq<ErrorEntry>, s: seq<ErrorEntry>, d: seq<ErrorEntry>)
    ensures e + v + s + d == e + (v + s + d)
  {
  }

  class Mark {
    var markValue: Option<Price>
    var markDate: Option<Date>
    var equity: Option<Equity>
    var errors: seq<ErrorEntry>

    constructor (markValue: Option<Price>, markDate: Option<Date>, equity: Option<Equity>)
      ensures this.markValue == markValue && this.markDate == markDate && this.equity == equity
      ensures errors == []
    {
      this.markValue := markValue;
      this.markDate := markDate;
      this.equity := equity;
      errors := [];
    }

    /** The root of the equity's symbol, or None when the equity, its symbol or the root is missing. */
    function EquitySymbolRoot(): (root: Option<string>)
      reads this
      ensures root.Some? <==>
        equity.Some? && equity.value.mSymbol.Some? && equity.value.mSymbol.value.root.Some?
      ensures root.Some? ==> root == equity.value.mSymbol.value.root
    {
      if equity.None? || equity.value.mSymbol.None? then None else equity.value.mSymbol.value.root
    }

    method Validate(today: Date)
      modifies this`errors
      ensures errors == old(errors) + ValidationErrors(markValue, EquitySymbolRoot(), markDate, today)
    {
      ghost var before := errors;
      if !(markValue.Some? && markValue.value >= 0) {
        errors := errors + [ErrorEntry(MarkValueAttr, MarkValueMessage)];
      }
      assert errors == before + ValueErrors(markValue);
      var root := EquitySymbolRoot();
      if !(root.Some? && !IsBlank(root.value)) {
        errors := errors + [ErrorEntry(SymbolAttr, SymbolMessage)];
      }
      assert errors == before + ValueErrors(markValue) + SymbolErrors(root);
      if !(markDate.Some? && markDate.value <= today) {
        errors := errors + [ErrorEntry(MarkDateAttr, MarkDateMessage)];
      }
      assert errors == before + ValueErrors(markValue) + SymbolErrors(root) + DateErrors(markDate, today);
      AppendThree(before, ValueErrors(markValue), SymbolErrors(root), DateErrors(markDate, today));
    }

    /** Defaults the mark date to today on creation; an existing date is kept. */
    method BeforeCreate(today: Date)
      modifies this`markDate
      ensures old(markDate).None? ==> markDate == Some(today)
      ensures old(markDate).Some? ==> markDate == old(markDate)
    {
      if markDate.None? {
        markDate := Some(today);
      }
    }

    method PrettyPrintErrors() returns (report: string)
      ensures report == PrettyErrors(errors)
    {
      report := "{";
      if |errors| > 0 {
        var symbolMsgs := Messages(errors, SymbolAttr);
        if Shown(symbolMsgs) {
          report := report + ("Symbol " + Interpolated(symbolMsgs) + " ");
        }
        assert report == "{" + SymbolSection(errors);
        var valueMsgs := Messages(errors, MarkValueAttr);
        if Shown(valueMsgs) {
          if |valueMsgs| > 1 {
            report := report + ("Value " + valueMsgs[0] + " ");
          } else {
            report := report + ("Value " + Interpolated(valueMsgs) + " ");
          }
        }
        assert report == "{" + SymbolSection(errors) + ValueSection(errors);
        var dateMsgs := Messages(errors, MarkDateAttr);
        if Shown(dateMsgs) {
          report := report + ("Date " + Interpolated(dateMsgs) + " ");
        }
        assert report == "{" + SymbolSection(errors) + ValueSection(errors) + DateSection(errors);
      } else {
        assert SymbolSection(errors) + ValueSection(errors) + DateSection(errors) == "";
      }
      report := report + "}";
    }
  }
}
