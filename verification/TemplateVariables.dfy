/** Numbering the variables of a WhatsApp template, filling them and sending them
    (src/utils/whatsapp-template.js). */
module TemplateVariables {
  import opened Text

  // ---------------------------------------------------------------- placeholders

  predicate IsDigit(c: char) {
    '0' <= c <= '9'
  }

  /** Digits at the front of a text. */
  function DigitRun(s: string): (n: nat)
    ensures n <= |s|
  {
    if s == "" || !IsDigit(s[0]) then 0 else 1 + DigitRun(s[1..])
  }

  function Number(digits: string): nat {
    if digits == "" then 0 else
      10 * Number(digits[..|digits| - 1]) + if IsDigit(digits[|digits| - 1]) then (digits[|digits| - 1] - '0') as nat
          else 0
  }

  /** The numbers of the {{n}} in a text, from left to right. */
  function Placeholders(text: string): seq<nat>
    decreases |text|
  {
    if |text| < 5 then []
    else
      var n := DigitRun(text[2..]);
      if text[..2] == "{{" && 0 < n && n + 4 <= |text| && text[n + 2..n + 4] == "}}"
      then [Number(text[2..n + 2])] + Placeholders(text[n + 4..])
      else Placeholders(text[1..])
  }

  // ---------------------------------------------------------------- components

  datatype Button = Button(kind: string, url: string)

  datatype Kind = Header | Body | Buttons | Other

  datatype Component = Component(kind: Kind, format: string, text: string, buttons: seq<Button>)

  datatype Slot = Slot(index: nat, buttonIndex: nat, kind: string)

  function TextIndexes(comps: seq<Component>, counts: Component -> bool): (r: seq<nat>)
  {
    if comps == [] then [] else
      TextIndexes(comps[..|comps| - 1], counts)
      + if counts(comps[|comps| - 1]) then Placeholders(comps[|comps| - 1].text) else []
  }

  predicate HasText(c: Component) {
    (c.kind == Header || c.kind == Body) && c.text != ""
  }

  predicate AnyText(c: Component) {
    true
  }

  predicate IsMax(max: nat, indexes: seq<nat>) {
    (forall i | i in indexes :: i <= max) && (max == 0 || max in indexes)
  }

  /** maxTextIndex: the highest placeholder of header and body. */
  method MaxTextIndex(comps: seq<Component>) returns (max: nat)
    ensures IsMax(max, TextIndexes(comps, HasText))
  {
    max := 0;
    for k := 0 to |comps|
      invariant IsMax(max, TextIndexes(comps[..k], HasText))
    {
      assert comps[..k + 1][..k] == comps[..k];
      if HasText(comps[k]) {
        var indexes := Placeholders(comps[k].text);
        ghost var before := TextIndexes(comps[..k], HasText);
        for i := 0 to |indexes|
          invariant IsMax(max, before + indexes[..i])
        {
          assert before + indexes[..i + 1] == before + indexes[..i] + [indexes[i]];
          max := if indexes[i] > max then indexes[i] else max;
        }
        assert indexes[..|indexes|] == indexes;
      }
    }
    assert comps[..|comps|] == comps;
  }

  function Max(indexes: seq<nat>): (max: nat)
    ensures IsMax(max, indexes)
  {
    if indexes == [] then 0 else
      var before, last := Max(indexes[..|indexes| - 1]), indexes[|indexes| - 1];
      assert indexes == indexes[..|indexes| - 1] + [last];
      if last > before then last else before
  }

  /** A button that needs a parameter of its own. */
  predicate Dynamic(b: Button) {
    Upper(b.kind) == "COPY_CODE" || (Upper(b.kind) == "URL" && Placeholders(b.url) != [])
  }

  /** The dynamic ones of a component's first n buttons, with their positions. */
  function DynamicOf(buttons: seq<Button>, n: nat): seq<(nat, string)>
    requires n <= |buttons|
  {
    if n == 0 then [] else
      DynamicOf(buttons, n - 1) + if Dynamic(buttons[n - 1]) then [(n - 1, Upper(buttons[n - 1].kind))] else []
  }

  function AllDynamic(comps: seq<Component>): seq<(nat, string)> {
    if comps == [] then [] else
      var last := comps[|comps| - 1];
      AllDynamic(comps[..|comps| - 1]) + if last.kind == Buttons then DynamicOf(last.buttons, |last.buttons|) else []
  }

  /** Slots numbered on from `max`, one for each dynamic button. */
  function Numbered(max: nat, dynamic: seq<(nat, string)>): (slots: seq<Slot>)
    ensures |slots| == |dynamic|
    ensures forall k | 0 <= k < |slots| :: slots[k] == Slot(max + 1 + k, dynamic[k].0, dynamic[k].1)
  {
    seq(|dynamic|, k requires 0 <= k < |dynamic| => Slot(max + 1 + k, dynamic[k].0, dynamic[k].1))
  }

  function Slots(comps: seq<Component>): seq<Slot> {
    Numbered(Max(TextIndexes(comps, HasText)), AllDynamic(comps))
  }

  /** The inner loop of dynamicButtonSlots: one component's buttons, numbered on from `nextIndex`. */
  method NumberButtons(buttons: seq<Button>, start: seq<Slot>, max: nat, ghost before: seq<(nat, string)>)
      returns (slots: seq<Slot>)
    requires start == Numbered(max, before)
    ensures slots == Numbered(max, before + DynamicOf(buttons, |buttons|))
  {
    var nextIndex := max + |start|;
    slots := start;
    assert before + DynamicOf(buttons, 0) == before;
    for k := 0 to |buttons|
      invariant slots == Numbered(max, before + DynamicOf(buttons, k)) && nextIndex == max + |slots|
    {
      if Dynamic(buttons[k]) {
        nextIndex := nextIndex + 1;
        NumberedOn(max, before + DynamicOf(buttons, k), (k, Upper(buttons[k].kind)));
        assert before + DynamicOf(buttons, k + 1) == before + DynamicOf(buttons, k) + [(k, Upper(buttons[k].kind))];
        slots := slots + [Slot(nextIndex, k, Upper(buttons[k].kind))];
      } else {
        assert DynamicOf(buttons, k + 1) == DynamicOf(buttons, k);
      }
    }
  }

  /** dynamicButtonSlots: the dynamic buttons, in order, take exactly the indexes after the highest placeholder. */
  method DynamicButtonSlots(comps: seq<Component>) returns (slots: seq<Slot>)
    ensures slots == Slots(comps)
  {
    var max := MaxTextIndex(comps);
    MaxIsUnique(max, TextIndexes(comps, HasText));
    slots := [];
    for c := 0 to |comps|
      invariant slots == Numbered(max, AllDynamic(comps[..c]))
    {
      assert comps[..c + 1][..c] == comps[..c];
      if comps[c].kind == Buttons {
        slots := NumberButtons(comps[c].buttons, slots, max, AllDynamic(comps[..c]));
      }
    }
    assert comps[..|comps|] == comps;
  }

  lemma MaxIsUnique(max: nat, indexes: seq<nat>)
    requires IsMax(max, indexes)
    ensures max == Max(indexes)
  {
  }

  lemma NumberedOn(max: nat, dynamic: seq<(nat, string)>, next: (nat, string))
    ensures Numbered(max, dynamic + [next]) == Numbered(max, dynamic) + [Slot(max + 1 + |dynamic|, next.0, next.1)]
  {
  }

  /** No slot shares its index with a header or body placeholder, or with another slot. */
  lemma SlotsAreFresh(comps: seq<Component>, k: nat)
    requires k < |Slots(comps)|
    ensures Slots(comps)[k].index !in TextIndexes(comps, HasText)
    ensures forall j | 0 <= j < |Slots(comps)| && Slots(comps)[j].index == Slots(comps)[k].index :: j == k
  {
  }

  // ---------------------------------------------------------------- filling

  /** The caller's variables: an explicit list under `whatsapp` or `params`, and values under all-digit keys in
      ascending order. What the named ones give an index is `fill` below. */
  datatype Variables = Variables(whatsapp: Option<seq<string>>, params: Option<seq<string>>, digits: seq<(nat, string)>)

  /** positionalValues. */
  function Positional(v: Variables): seq<string> {
    if v.whatsapp.Some? then v.whatsapp.value
    else if v.params.Some? then v.params.value
    else seq(|v.digits|, i requires 0 <= i < |v.digits| => v.digits[i].1)
  }

  datatype Normalized = Normalized(variables: Variables, missing: set<nat>)

  predicate Blank(s: string) {
    Trim(s) == ""
  }

  function SlotIndexes(slots: seq<Slot>): set<nat> {
    set k | 0 <= k < |slots| :: slots[k].index
  }

  /** Every index the template uses: placeholders of all its texts, and button slots. */
  function Indexes(comps: seq<Component>): set<nat> {
    (set i | i in TextIndexes(comps, AnyText)) + SlotIndexes(Slots(comps))
  }

  function Highest(comps: seq<Component>, v: Variables): nat {
    var text := Max(TextIndexes(comps, AnyText));
    var slots := Slots(comps);
    var used := if slots == [] || slots[|slots| - 1].index < text then text else slots[|slots| - 1].index;
    if |Positional(v)| > used then |Positional(v)| else used
  }

  /** normalizeWhatsAppVariables. */
  function Normalize(comps: seq<Component>, v: Variables, fill: nat -> string): Normalized {
    var explicit, n := Positional(v), Highest(comps, v);
    if n == 0 then Normalized(v, {})
    else
      var values := seq(n, k requires 0 <= k < n => if k < |explicit| then explicit[k] else fill(k + 1));
      Normalized(v.(whatsapp := Some(values)),
                 set i | i in Indexes(comps) && (i == 0 || n < i || Blank(values[i - 1])))
  }

  /** No index used lies beyond the highest. */
  lemma IndexesAreCovered(comps: seq<Component>, v: Variables, i: nat)
    requires i in Indexes(comps)
    ensures i <= Highest(comps, v)
  {
  }

  /** Normalizing what was normalized changes nothing and misses the same. */
  lemma NormalizeIsIdempotent(comps: seq<Component>, v: Variables, fill: nat -> string, refill: nat -> string)
    ensures Normalize(comps, Normalize(comps, v, fill).variables, refill) == Normalize(comps, v, fill)
  {
    var once := Normalize(comps, v, fill);
    if Highest(comps, v) > 0 {
      var twice := Normalize(comps, once.variables, refill);
      assert Highest(comps, once.variables) == Highest(comps, v);
      assert twice.variables.whatsapp.value == once.variables.whatsapp.value;
    }
  }

  // ---------------------------------------------------------------- sending

  datatype Part =
    | TextPart(header: bool, parameters: seq<string>)
    | ButtonPart(coupon: bool, buttonIndex: nat, value: string)

  predicate HasDigit(v: Variables, index: nat) {
    exists k :: 0 <= k < |v.digits| && v.digits[k].0 == index
  }

  /** The value sent for an index: the positional one, or that of its digit key, which wins. */
  function ValueAt(v: Variables, index: nat): string {
    if HasDigit(v, index) then
      var k := LastOf(v.digits, index, |v.digits|);
      v.digits[k].1
    else if 1 <= index <= |Positional(v)| then Positional(v)[index - 1]
    else ""
  }

  function LastOf(digits: seq<(nat, string)>, index: nat, n: nat): (k: nat)
    requires n <= |digits| && exists k :: 0 <= k < n && digits[k].0 == index
    ensures k < n && digits[k].0 == index
  {
    if digits[n - 1].0 == index then n - 1 else LastOf(digits, index, n - 1)
  }

  /** Each index once, where it comes first. */
  function Unique(indexes: seq<nat>): (r: seq<nat>)
    ensures forall i :: i in r <==> i in indexes
  {
    if indexes == [] then [] else
      var before, last := Unique(indexes[..|indexes| - 1]), indexes[|indexes| - 1];
      assert indexes == indexes[..|indexes| - 1] + [last];
      if last in before then before else before + [last]
  }

  function ParametersFor(text: string, v: Variables): seq<string> {
    var indexes := Unique(Placeholders(text));
    seq(|indexes|, k requires 0 <= k < |indexes| => ValueAt(v, indexes[k]))
  }

  /** Text is sent for a header of format TEXT and for the body. */
  predicate Sends(c: Component) {
    HasText(c) && (c.kind == Header ==> c.format == "TEXT")
  }

  /** What a component adds to the parts. */
  function PartOf(c: Component, v: Variables): seq<Part> {
    if Sends(c) && Placeholders(c.text) != [] then [TextPart(c.kind == Header, ParametersFor(c.text, v))] else []
  }

  function TextParts(comps: seq<Component>, v: Variables): seq<Part> {
    if comps == [] then [] else
      var last := comps[|comps| - 1];
      TextParts(comps[..|comps| - 1], v) + PartOf(last, v)
  }

  function ButtonParts(slots: seq<Slot>, v: Variables): (r: seq<Part>)
    ensures |r| == |slots|
    ensures forall k | 0 <= k < |r| ::
            r[k] == ButtonPart(slots[k].kind == "COPY_CODE", slots[k].buttonIndex, ValueAt(v, slots[k].index))
  {
    seq(|slots|, k requires 0 <= k < |slots| =>
      ButtonPart(slots[k].kind == "COPY_CODE", slots[k].buttonIndex, ValueAt(v, slots[k].index)))
  }

  /** The text parts of buildTemplateSendComponents. */
  method BuildText(comps: seq<Component>, v: Variables) returns (parts: seq<Part>)
    ensures parts == TextParts(comps, v)
  {
    parts := [];
    for c := 0 to |comps|
      invariant parts == TextParts(comps[..c], v)
    {
      assert comps[..c + 1][..c] == comps[..c];
      if Sends(comps[c]) {
        var parameters := ParametersFor(comps[c].text, v);
        UniqueIsEmptyIff(Placeholders(comps[c].text));
        if |parameters| > 0 {
          parts := parts + [TextPart(comps[c].kind == Header, parameters)];
        }
      }
    }
    assert comps[..|comps|] == comps;
  }

  /** Its button parts. */
  method BuildButtons(slots: seq<Slot>, v: Variables) returns (parts: seq<Part>)
    ensures parts == ButtonParts(slots, v)
  {
    parts := [];
    for k := 0 to |slots|
      invariant |parts| == k && forall i | 0 <= i < k :: parts[i] == ButtonParts(slots, v)[i]
    {
      parts := parts + [ButtonPart(slots[k].kind == "COPY_CODE", slots[k].buttonIndex, ValueAt(v, slots[k].index))];
    }
  }

  /** buildTemplateSendComponents: the text parts, then a part for every slot. */
  method BuildSend(comps: seq<Component>, v: Variables) returns (parts: seq<Part>)
    ensures parts == TextParts(comps, v) + ButtonParts(Slots(comps), v)
  {
    var text := BuildText(comps, v);
    var slots := DynamicButtonSlots(comps);
    var buttons := BuildButtons(slots, v);
    parts := text + buttons;
  }

  lemma UniqueIsEmptyIff(indexes: seq<nat>)
    ensures Unique(indexes) == [] <==> indexes == []
  {
  }

  predicate Filled(p: Part) {
    match p
    case TextPart(_, parameters) => forall k | 0 <= k < |parameters| :: !Blank(parameters[k])
    case ButtonPart(_, _, value) => !Blank(value)
  }

  predicate AllFilled(parts: seq<Part>) {
    forall k | 0 <= k < |parts| :: Filled(parts[k])
  }

  predicate Valued(indexes: seq<nat>, v: Variables) {
    forall i | i in indexes :: !Blank(ValueAt(v, i))
  }

  lemma ValuedJoins(a: seq<nat>, b: seq<nat>, v: Variables)
    ensures Valued(a + b, v) <==> Valued(a, v) && Valued(b, v)
  {
  }

  lemma PartOfFilledIff(c: Component, v: Variables)
    ensures AllFilled(PartOf(c, v)) <==> Valued(if Sends(c) then Placeholders(c.text) else [], v)
  {
    PartFilledIff(c, v);
    assert AllFilled([TextPart(c.kind == Header, ParametersFor(c.text, v))])
           <==> Filled([TextPart(c.kind == Header, ParametersFor(c.text, v))][0]);
  }

  /** Text parts are filled exactly when the value of every index they use is. */
  lemma {:induction false} TextFilledIff(comps: seq<Component>, v: Variables)
    ensures AllFilled(TextParts(comps, v)) <==> Valued(TextIndexes(comps, Sends), v)
  {
    if comps != [] {
      var last, before := comps[|comps| - 1], comps[..|comps| - 1];
      TextFilledIff(before, v);
      PartOfFilledIff(last, v);
      FilledJoins(TextParts(before, v), PartOf(last, v));
      ValuedJoins(TextIndexes(before, Sends), if Sends(last) then Placeholders(last.text) else [], v);
    }
  }

  lemma PartFilledIff(c: Component, v: Variables)
    ensures Filled(TextPart(c.kind == Header, ParametersFor(c.text, v)))
            <==> forall i | i in Placeholders(c.text) :: !Blank(ValueAt(v, i))
  {
    var indexes, parameters := Unique(Placeholders(c.text)), ParametersFor(c.text, v);
    if Filled(TextPart(c.kind == Header, parameters)) {
      forall i | i in Placeholders(c.text) ensures !Blank(ValueAt(v, i)) {
        assert i in indexes;
        var k :| 0 <= k < |indexes| && indexes[k] == i;
        assert parameters[k] == ValueAt(v, i);
      }
    }
  }

  lemma {:induction false} SentIsUsed(comps: seq<Component>, i: nat)
    requires i in TextIndexes(comps, Sends)
    ensures i in TextIndexes(comps, AnyText)
  {
    if comps != [] {
      if i in TextIndexes(comps[..|comps| - 1], Sends) {
        SentIsUsed(comps[..|comps| - 1], i);
      }
    }
  }

  lemma NormalizedValue(comps: seq<Component>, v: Variables, fill: nat -> string, k: nat)
    requires k < Highest(comps, v)
    ensures var list := Normalize(comps, v, fill).variables.whatsapp;
            list.Some? && |list.value| == Highest(comps, v)
            && list.value[k] == if k < |Positional(v)| then Positional(v)[k] else fill(k + 1)
  {
  }

  lemma ValueIsListed(v: Variables, i: nat)
    requires !HasDigit(v, i) && v.whatsapp.Some? && 1 <= i <= |v.whatsapp.value|
    ensures ValueAt(v, i) == v.whatsapp.value[i - 1]
  {
  }

  /** Normalizing leaves the digit keys, and what they override, alone. */
  lemma SameDigits(comps: seq<Component>, v: Variables, fill: nat -> string, i: nat)
    ensures var w := Normalize(comps, v, fill).variables;
            (HasDigit(w, i) <==> HasDigit(v, i)) && (HasDigit(v, i) ==> ValueAt(w, i) == ValueAt(v, i))
  {
  }

  /** What is sent for an index is the caller's value in that position, or else what the named values give it. */
  lemma SentValueIs(comps: seq<Component>, v: Variables, fill: nat -> string, i: nat)
    requires !HasDigit(v, i) && 1 <= i <= Highest(comps, v)
    ensures ValueAt(Normalize(comps, v, fill).variables, i) == if i <= |Positional(v)| then Positional(v)[i - 1]
            else fill(i)
  {
    NormalizedValue(comps, v, fill, i - 1);
    SameDigits(comps, v, fill, i);
    ValueIsListed(Normalize(comps, v, fill).variables, i);
  }

  lemma NothingAtZero(v: Variables)
    requires !HasDigit(v, 0)
    ensures ValueAt(v, 0) == "" && Blank("")
  {
  }

  lemma NormalizedMissing(comps: seq<Component>, v: Variables, fill: nat -> string, i: nat)
    requires Highest(comps, v) > 0 && i in Indexes(comps)
    ensures var r := Normalize(comps, v, fill);
            r.variables.whatsapp.Some? && i <= |r.variables.whatsapp.value| == Highest(comps, v)
            && (i in r.missing <==> i == 0 || Blank(r.variables.whatsapp.value[i - 1]))
  {
    IndexesAreCovered(comps, v, i);
  }

  lemma OnlyUsedAreMissing(comps: seq<Component>, v: Variables, fill: nat -> string, i: nat)
    ensures i in Normalize(comps, v, fill).missing ==> i in Indexes(comps)
  {
  }

  /** Missing are exactly the indexes whose value would be blank when sent. */
  lemma MissingIsExact(comps: seq<Component>, v: Variables, fill: nat -> string, i: nat)
    requires !HasDigit(v, i) && Highest(comps, v) > 0
    ensures i in Normalize(comps, v, fill).missing
            <==> i in Indexes(comps) && Blank(ValueAt(Normalize(comps, v, fill).variables, i))
  {
    var r := Normalize(comps, v, fill);
    OnlyUsedAreMissing(comps, v, fill, i);
    SameDigits(comps, v, fill, i);
    if i in Indexes(comps) {
      NormalizedMissing(comps, v, fill, i);
      BlankIffListed(r.variables, i);
    }
  }

  lemma BlankIffListed(v: Variables, i: nat)
    requires !HasDigit(v, i) && v.whatsapp.Some? && i <= |v.whatsapp.value|
    ensures Blank(ValueAt(v, i)) <==> i == 0 || Blank(v.whatsapp.value[i - 1])
  {
    if i == 0 {
      NothingAtZero(v);
    } else {
      ValueIsListed(v, i);
    }
  }

  /** Indexes of the parameters that are sent. */
  predicate Sent(comps: seq<Component>, i: nat) {
    i in TextIndexes(comps, Sends) || i in SlotIndexes(Slots(comps))
  }

  lemma SentAreUsed(comps: seq<Component>, i: nat)
    requires Sent(comps, i)
    ensures i in Indexes(comps)
  {
    if i in TextIndexes(comps, Sends) {
      SentIsUsed(comps, i);
    }
  }

  /** The variables give no blank for what is sent: no digit key overrides an index with a blank, and unless a digit
      key gives it the index is one that normalizing looks at. */
  ghost predicate GivesNoBlank(comps: seq<Component>, v: Variables) {
    forall i | Sent(comps, i) :: if HasDigit(v, i) then !Blank(ValueAt(v, i)) else Highest(comps, v) > 0
  }

  /** With nothing missing, an index sends a blank if its digit key does, or if there was nothing to look at. */
  lemma SentBlankIff(comps: seq<Component>, v: Variables, fill: nat -> string, i: nat)
    requires Normalize(comps, v, fill).missing == {} && i in Indexes(comps)
    ensures Blank(ValueAt(Normalize(comps, v, fill).variables, i))
            <==> if HasDigit(v, i) then Blank(ValueAt(v, i)) else Highest(comps, v) == 0
  {
    SameDigits(comps, v, fill, i);
    if !HasDigit(v, i) && Highest(comps, v) > 0 {
      MissingIsExact(comps, v, fill, i);
    } else if !HasDigit(v, i) {
      IndexesAreCovered(comps, v, i);
      NothingAtZero(v);
    }
  }

  lemma PartsFilledIff(comps: seq<Component>, v: Variables)
    ensures AllFilled(TextParts(comps, v) + ButtonParts(Slots(comps), v))
            <==> forall i | Sent(comps, i) :: !Blank(ValueAt(v, i))
  {
    var slots, buttons := Slots(comps), ButtonParts(Slots(comps), v);
    TextFilledIff(comps, v);
    FilledJoins(TextParts(comps, v), buttons);
    assert AllFilled(buttons) <==> forall i | i in SlotIndexes(slots) :: !Blank(ValueAt(v, i)) by {
      forall k | 0 <= k < |slots|
          ensures slots[k].index in SlotIndexes(slots) && (Filled(buttons[k]) <==> !Blank(ValueAt(v, slots[k].index))) {
      }
    }
  }

  /** Nothing sent is blank. */
  predicate SendsNoBlank(comps: seq<Component>, v: Variables) {
    AllFilled(TextParts(comps, v) + ButtonParts(Slots(comps), v))
  }

  /** Send soundness, for all variables. "Nothing missing" means that no parameter sent is blank, except in two cases: a
      digit key overrides a sent index with a blank; or the only placeholders are {{0}} in a text that is sent and no
      value was given, where normalizing returns early. */
  lemma SendIsSoundIff(comps: seq<Component>, v: Variables, fill: nat -> string)
    ensures var r := Normalize(comps, v, fill);
            r.missing == {} ==> (SendsNoBlank(comps, r.variables) <==> GivesNoBlank(comps, v))
  {
    var r := Normalize(comps, v, fill);
    PartsFilledIff(comps, r.variables);
    if r.missing == {} {
      forall i | Sent(comps, i)
        ensures Blank(ValueAt(r.variables, i))
                <==> if HasDigit(v, i) then Blank(ValueAt(v, i)) else Highest(comps, v) == 0
      {
        SentAreUsed(comps, i);
        SentBlankIff(comps, v, fill, i);
      }
    }
  }

  lemma NoDigitsGiveNoBlankIff(comps: seq<Component>, v: Variables)
    requires v.digits == []
    ensures GivesNoBlank(comps, v) <==> !(Highest(comps, v) == 0 && 0 in TextIndexes(comps, Sends))
  {
    if Highest(comps, v) == 0 {
      OnlyZeroIsSent(comps, v);
      assert 0 in TextIndexes(comps, Sends) ==> Sent(comps, 0);
    }
  }

  /** Without digit keys only the second case is left. */
  lemma SendIsSoundWithoutDigitsIff(comps: seq<Component>, v: Variables, fill: nat -> string)
    requires v.digits == []
    ensures var r := Normalize(comps, v, fill);
            (r.missing == {} ==> SendsNoBlank(comps, r.variables))
                <==> !(Highest(comps, v) == 0 && 0 in TextIndexes(comps, Sends))
  {
    SendIsSoundIff(comps, v, fill);
    NoDigitsGiveNoBlankIff(comps, v);
  }

  lemma OnlyZeroIsSent(comps: seq<Component>, v: Variables)
    requires Highest(comps, v) == 0
    ensures forall i | Sent(comps, i) :: i == 0 && 0 in TextIndexes(comps, Sends)
  {
    forall i | Sent(comps, i) ensures i == 0 && 0 in TextIndexes(comps, Sends) {
      SentAreUsed(comps, i);
      IndexesAreCovered(comps, v, i);
    }
  }

  lemma FilledJoins(a: seq<Part>, b: seq<Part>)
    ensures AllFilled(a + b) <==> AllFilled(a) && AllFilled(b)
  {
    if AllFilled(a + b) {
      assert forall k | 0 <= k < |a| :: (a + b)[k] == a[k];
      assert forall k | 0 <= k < |b| :: (a + b)[|a| + k] == b[k];
    }
  }
}
