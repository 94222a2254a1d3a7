/**
 * The DOCX export (`generateDoc`): a walk over a specification that pushes
 * paragraphs onto a list — the title, the date, then for each section a
 * numbered heading followed by each numbered item paragraph and that item's
 * embedded screenshots — while adding up the items' minutes, and finally a
 * spacer and a one-row table with the total time.
 *
 * The docx library is replaced by the `Block` datatype (one variant per kind
 * of paragraph or table, without fonts, sizes and spacing); `fs.existsSync`
 * is the predicate `fileExists` over an attachment's stored path; the date
 * is kept as the stored timestamp, its locale rendering is not modelled.
 */
module DocService {
  import opened Wrappers
  import opened Text

  // ---------------------------------------------------------------------
  // The specification as the export reads it
  // ---------------------------------------------------------------------

  /** An uploaded file attached to an item; `mimetype` None is a missing one. */
  datatype Attachment = Attachment(mimetype: Option<string>, path: string)

  /** An item; `attachments` None is a relation that was not loaded. */
  datatype DocItem = DocItem(content: string, timeEstimate: Option<nat>, attachments: Option<seq<Attachment>>)

  datatype DocSection = DocSection(title: string, items: seq<DocItem>)

  datatype DocSpec = DocSpec(title: Option<string>, createdAt: int, sections: seq<DocSection>)

  // ---------------------------------------------------------------------
  // The document
  // ---------------------------------------------------------------------

  datatype ImageType = Png | Jpg

  datatype Block =
    | TitlePara(text: string)
    | DatePara(createdAt: int)
    | HeadingPara(text: string)
    /** The bold "k.m " number, the item text, and the time suffix. */
    | ItemPara(number: string, content: string, timeSuffix: string)
    /** A screenshot read from the file stored at `path`. */
    | ImagePara(path: string, kind: ImageType)
    | Spacer
    | TotalTable(caption: string, total: string)

  const DefaultTitle: string := "Техническое задание"
  const TotalLabel: string := "Общее время:"

  /** `spec.title || 'Техническое задание'`. */
  function DocTitle(title: Option<string>): (r: string)
    ensures title.Some? && title.value != [] ==> r == title.value
    ensures title.None? || title.value == [] ==> r == DefaultTitle
  {
    if title.Some? && title.value != [] then title.value else DefaultTitle
  }

  /** The heading of the section at (0-based) index `k`: "k+1. title". */
  function SectionHeading(k: nat, title: string): string {
    NatToString(k + 1) + ". " + title
  }

  /** The label of item `m` of section `k` (both 0-based): "k+1.m+1 ". */
  function ItemLabel(k: nat, m: nat): string {
    NatToString(k + 1) + "." + NatToString(m + 1) + " "
  }

  /** A truthy estimate: present and not zero. */
  predicate HasEstimate(t: Option<nat>) {
    t.Some? && t.value != 0
  }

  /** The minutes an item adds to the total: its estimate when truthy. */
  function Minutes(t: Option<nat>): (r: nat)
    ensures r == 0 <==> !HasEstimate(t)
  {
    if HasEstimate(t) then t.value else 0
  }

  /** " [t мин]" when the estimate is truthy, "" otherwise. */
  function TimeSuffix(t: Option<nat>): (r: string)
    ensures r != [] <==> HasEstimate(t)
  {
    if HasEstimate(t) then " [" + NatToString(t.value) + " мин]" else ""
  }

  /** Reads the minutes back from a time suffix (0 for the empty suffix or
      anything that is not a suffix). */
  function ParseSuffix(s: string): nat {
    if |s| >= 7 && s[..2] == " [" && s[|s| - 5..] == " мин]"
    then ParseNat(s[2..|s| - 5]).GetOr(0)
    else 0
  }

  /** The suffix shows exactly the minutes the item adds to the total. */
  lemma SuffixShowsMinutes(t: Option<nat>)
    ensures ParseSuffix(TimeSuffix(t)) == Minutes(t)
  {
    if HasEstimate(t) {
      var d := NatToString(t.value);
      var s := TimeSuffix(t);
      assert s == " [" + d + " мин]";
      assert s[..2] == " [";
      assert s[|s| - 5..] == " мин]";
      assert s[2..|s| - 5] == d;
      ParseNatToString(t.value);
    }
  }

  /** `att.mimetype && att.mimetype.startsWith('image/')`. */
  predicate IsImage(att: Attachment) {
    att.mimetype.Some? && StartsWith(att.mimetype.value, "image/")
  }

  /** `att.mimetype === 'image/png' ? 'png' : 'jpg'`. */
  function ImageKind(mimetype: string): (r: ImageType)
    ensures r == Png <==> mimetype == "image/png"
  {
    if mimetype == "image/png" then Png else Jpg
  }

  /** The screenshots embedded for a list of attachments, in list order: the
      image attachments whose file exists. */
  function ImageBlocks(atts: seq<Attachment>, fileExists: string -> bool): seq<Block> {
    if atts == [] then []
    else
      var att := atts[|atts| - 1];
      ImageBlocks(atts[..|atts| - 1], fileExists)
      + (if IsImage(att) && fileExists(att.path) then [ImagePara(att.path, ImageKind(att.mimetype.value))] else [])
  }

  /** The paragraphs of item `m` of section `k`. */
  function ItemBlocks(k: nat, m: nat, item: DocItem, includeImages: bool, fileExists: string -> bool): seq<Block> {
    [ItemPara(ItemLabel(k, m), item.content, TimeSuffix(item.timeEstimate))]
    + (if includeImages && item.attachments.Some? then ImageBlocks(item.attachments.value, fileExists) else [])
  }

  /** The paragraphs of the items of section `k`, in item order. */
  function ItemsBlocks(k: nat, items: seq<DocItem>, includeImages: bool, fileExists: string -> bool): seq<Block> {
    if items == [] then []
    else
      ItemsBlocks(k, items[..|items| - 1], includeImages, fileExists)
      + ItemBlocks(k, |items| - 1, items[|items| - 1], includeImages, fileExists)
  }

  /** The paragraphs of the sections, in section order: each heading and then
      its items. */
  function SectionsBlocks(sections: seq<DocSection>, includeImages: bool, fileExists: string -> bool): seq<Block> {
    if sections == [] then []
    else
      var k := |sections| - 1;
      SectionsBlocks(sections[..k], includeImages, fileExists)
      + [HeadingPara(SectionHeading(k, sections[k].title))]
      + ItemsBlocks(k, sections[k].items, includeImages, fileExists)
  }

  function ItemsMinutes(items: seq<DocItem>): nat {
    if items == [] then 0
    else ItemsMinutes(items[..|items| - 1]) + Minutes(items[|items| - 1].timeEstimate)
  }

  /** The sum of all truthy estimates, over all sections and items. */
  function SectionsMinutes(sections: seq<DocSection>): nat {
    if sections == [] then 0
    else SectionsMinutes(sections[..|sections| - 1]) + ItemsMinutes(sections[|sections| - 1].items)
  }

  /** The long form of a total, "h ч m мин". */
  function HourForm(h: string, m: string): string {
    h + " ч " + m + " мин"
  }

  /** The short form of a total, "t мин". */
  function MinuteForm(t: string): string {
    t + " мин"
  }

  /** "h ч m мин" with h = T div 60 and m = T mod 60 when h > 0, else "T мин". */
  function TotalString(total: nat): string {
    var hours := total / 60;
    var mins := total % 60;
    if hours > 0 then HourForm(NatToString(hours), NatToString(mins))
    else MinuteForm(NatToString(total))
  }

  /** The document `generateDoc` builds. */
  function Render(spec: DocSpec, includeImages: bool, fileExists: string -> bool): seq<Block> {
    [TitlePara(DocTitle(spec.title)), DatePara(spec.createdAt)]
    + SectionsBlocks(spec.sections, includeImages, fileExists)
    + [Spacer, TotalTable(TotalLabel, TotalString(SectionsMinutes(spec.sections)))]
  }

  // ---------------------------------------------------------------------
  // What the rendered document shows
  // ---------------------------------------------------------------------

  /** Reads the space-separated fields of a total back: "h", "ч", "m", "мин"
      as h*60+m, and "t", "мин" as t. */
  function ParseFields(parts: seq<string>): Option<nat> {
    if |parts| == 4 && parts[1] == "ч" && parts[3] == "мин"
       && ParseNat(parts[0]).Some? && ParseNat(parts[2]).Some?
    then Some(ParseNat(parts[0]).value * 60 + ParseNat(parts[2]).value)
    else if |parts| == 2 && parts[1] == "мин" && ParseNat(parts[0]).Some?
    then Some(ParseNat(parts[0]).value)
    else None
  }

  /** Reads a total back: "h ч m мин" as h*60+m, "t мин" as t. */
  function ParseTotal(s: string): Option<nat> {
    ParseFields(Split(s, ' '))
  }

  lemma MinuteFormSplits(t: string)
    requires AllDigits(t)
    ensures Split(MinuteForm(t), ' ') == [t, "мин"]
  {
    DigitsExclude(t, ' ');
    assert t + " мин" == t + [' '] + "мин";
    SplitField(t, ' ', "мин");
    SplitWhole("мин", ' ');
  }

  lemma HourFormSplits(h: string, m: string)
    requires AllDigits(h) && AllDigits(m)
    ensures Split(HourForm(h, m), ' ') == [h, "ч", m, "мин"]
  {
    DigitsExclude(h, ' ');
    var tail := MinuteForm(m);
    assert HourForm(h, m) == h + [' '] + "ч" + [' '] + tail;
    SplitTwoFields(h, "ч", tail, ' ');
    MinuteFormSplits(m);
  }

  lemma ParseHourFields(parts: seq<string>, h: string, m: string)
    requires |h| >= 1 && AllDigits(h) && |m| >= 1 && AllDigits(m)
    requires parts == [h, "ч", m, "мин"]
    ensures ParseFields(parts) == Some(DigitsValue(h) * 60 + DigitsValue(m))
  {
  }

  /** The fields of the hour form: the whole hours, "ч", the remaining
      minutes and "мин". */
  lemma HourFormFields(total: nat)
    requires total >= 60
    ensures Split(TotalString(total), ' ') == [NatToString(total / 60), "ч", NatToString(total % 60), "мин"]
  {
    var h := NatToString(total / 60);
    var m := NatToString(total % 60);
    assert TotalString(total) == HourForm(h, m);
    HourFormSplits(h, m);
  }

  lemma HourFormRoundTrip(total: nat)
    requires total >= 60
    ensures ParseTotal(TotalString(total)) == Some(total)
    ensures Split(TotalString(total), ' ') == [NatToString(total / 60), "ч", NatToString(total % 60), "мин"]
  {
    var h := NatToString(total / 60);
    var m := NatToString(total % 60);
    HourFormFields(total);
    ParseHourFields(Split(TotalString(total), ' '), h, m);
    assert (total / 60) * 60 + total % 60 == total;
  }

  lemma MinuteFormRoundTrip(total: nat)
    requires total < 60
    ensures ParseTotal(TotalString(total)) == Some(total)
    ensures Split(TotalString(total), ' ') == [NatToString(total), "мин"]
  {
    MinuteFormSplits(NatToString(total));
    ParseNatToString(total);
  }

  /** The total string shows exactly the total: the hour form carries the
      whole hours and the remaining minutes, the short form the minutes. */
  lemma TotalStringRoundTrip(total: nat)
    ensures ParseTotal(TotalString(total)) == Some(total)
    ensures total >= 60 <==> Split(TotalString(total), ' ')[1] == "ч"
    ensures total >= 60 ==>
              && Split(TotalString(total), ' ')[0] == NatToString(total / 60)
              && Split(TotalString(total), ' ')[2] == NatToString(total % 60)
    ensures total < 60 ==> Split(TotalString(total), ' ')[0] == NatToString(total)
  {
    if total >= 60 {
      HourFormRoundTrip(total);
    } else {
      MinuteFormRoundTrip(total);
    }
  }

  /** 90 minutes are shown as one hour and thirty minutes. */
  lemma HourFormExample()
    ensures TotalString(90) == "1 ч 30 мин"
  {
    assert NatToString(1) == "1";
    assert NatToString(3) == "3";
    assert NatToString(30) == NatToString(3) + "0";
  }

  /** 45 minutes are shown in the short form. */
  lemma MinuteFormExample()
    ensures TotalString(45) == "45 мин"
  {
    assert NatToString(4) == "4";
    assert NatToString(45) == NatToString(4) + "5";
  }

  /** The texts of the section headings among `bs`, in order. */
  function Headings(bs: seq<Block>): seq<string> {
    if bs == [] then []
    else Headings(bs[..|bs| - 1]) + (if bs[|bs| - 1].HeadingPara? then [bs[|bs| - 1].text] else [])
  }

  /** The numbers of the item paragraphs among `bs`, in order. */
  function ItemNumbers(bs: seq<Block>): seq<string> {
    if bs == [] then []
    else ItemNumbers(bs[..|bs| - 1]) + (if bs[|bs| - 1].ItemPara? then [bs[|bs| - 1].number] else [])
  }

  /** The minutes shown in the item paragraphs among `bs`, added up. */
  function ShownMinutes(bs: seq<Block>): nat {
    if bs == [] then 0
    else ShownMinutes(bs[..|bs| - 1]) + (if bs[|bs| - 1].ItemPara? then ParseSuffix(bs[|bs| - 1].timeSuffix) else 0)
  }

  predicate OnlyImages(bs: seq<Block>) {
    forall i :: 0 <= i < |bs| ==> bs[i].ImagePara?
  }

  predicate NoImages(bs: seq<Block>) {
    forall i :: 0 <= i < |bs| ==> !bs[i].ImagePara?
  }

  lemma {:induction false} HeadingsAppend(a: seq<Block>, b: seq<Block>)
    ensures Headings(a + b) == Headings(a) + Headings(b)
    decreases |b|
  {
    if b == [] {
      assert a + b == a;
    } else {
      var b' := b[..|b| - 1];
      var last := b[|b| - 1];
      assert (a + b)[..|a + b| - 1] == a + b';
      assert (a + b)[|a + b| - 1] == last;
      HeadingsAppend(a, b');
      Assoc(Headings(a), Headings(b'), if last.HeadingPara? then [last.text] else []);
    }
  }

  lemma {:induction false} NumbersAppend(a: seq<Block>, b: seq<Block>)
    ensures ItemNumbers(a + b) == ItemNumbers(a) + ItemNumbers(b)
    decreases |b|
  {
    if b == [] {
      assert a + b == a;
    } else {
      var b' := b[..|b| - 1];
      var last := b[|b| - 1];
      assert (a + b)[..|a + b| - 1] == a + b';
      assert (a + b)[|a + b| - 1] == last;
      NumbersAppend(a, b');
      Assoc(ItemNumbers(a), ItemNumbers(b'), if last.ItemPara? then [last.number] else []);
    }
  }

  lemma {:induction false} ShownAppend(a: seq<Block>, b: seq<Block>)
    ensures ShownMinutes(a + b) == ShownMinutes(a) + ShownMinutes(b)
    decreases |b|
  {
    if b == [] {
      assert a + b == a;
    } else {
      var b' := b[..|b| - 1];
      assert (a + b)[..|a + b| - 1] == a + b';
      assert (a + b)[|a + b| - 1] == b[|b| - 1];
      ShownAppend(a, b');
    }
  }

  lemma {:induction false} ReadOnlyImages(bs: seq<Block>)
    requires OnlyImages(bs)
    ensures Headings(bs) == [] && ItemNumbers(bs) == [] && ShownMinutes(bs) == 0
  {
    if bs != [] {
      ReadOnlyImages(bs[..|bs| - 1]);
    }
  }

  /** A screenshot is embedded for an attachment exactly when it is an image
      whose file exists, with the type the mimetype selects; nothing else is
      embedded. */
  lemma {:induction false} ImageBlocksExactly(atts: seq<Attachment>, fileExists: string -> bool, b: Block)
    ensures OnlyImages(ImageBlocks(atts, fileExists))
    ensures b in ImageBlocks(atts, fileExists) <==>
              exists a :: a in atts && IsImage(a) && fileExists(a.path)
                          && b == ImagePara(a.path, ImageKind(a.mimetype.value))
  {
    if atts != [] {
      var init := atts[..|atts| - 1];
      var last := atts[|atts| - 1];
      ImageBlocksExactly(init, fileExists, b);
      assert atts == init + [last];
      forall a | a in atts ensures a in init || a == last { }
    }
  }

  lemma ItemBlocksRead(k: nat, m: nat, item: DocItem, includeImages: bool, fileExists: string -> bool)
    ensures Headings(ItemBlocks(k, m, item, includeImages, fileExists)) == []
    ensures ItemNumbers(ItemBlocks(k, m, item, includeImages, fileExists)) == [ItemLabel(k, m)]
    ensures ShownMinutes(ItemBlocks(k, m, item, includeImages, fileExists)) == Minutes(item.timeEstimate)
  {
    var para := [ItemPara(ItemLabel(k, m), item.content, TimeSuffix(item.timeEstimate))];
    var images := if includeImages && item.attachments.Some? then ImageBlocks(item.attachments.value, fileExists) else [];
    if includeImages && item.attachments.Some? {
      ImageBlocksExactly(item.attachments.value, fileExists, Spacer);
    }
    ReadOnlyImages(images);
    HeadingsAppend(para, images);
    NumbersAppend(para, images);
    ShownAppend(para, images);
    assert para[..0] == [];
    SuffixShowsMinutes(item.timeEstimate);
  }

  /** Within a section there is no heading. */
  lemma {:induction false} ItemsHaveNoHeadings(k: nat, items: seq<DocItem>, includeImages: bool, fileExists: string -> bool)
    ensures Headings(ItemsBlocks(k, items, includeImages, fileExists)) == []
  {
    if items != [] {
      var n := |items| - 1;
      ItemsHaveNoHeadings(k, items[..n], includeImages, fileExists);
      ItemBlocksRead(k, n, items[n], includeImages, fileExists);
      HeadingsAppend(ItemsBlocks(k, items[..n], includeImages, fileExists),
                     ItemBlocks(k, n, items[n], includeImages, fileExists));
    }
  }

  /** Within section k the items are numbered "k.1 ", "k.2 ", ... in order. */
  lemma {:induction false} ItemsNumbered(k: nat, items: seq<DocItem>, includeImages: bool, fileExists: string -> bool)
    ensures ItemNumbers(ItemsBlocks(k, items, includeImages, fileExists))
            == seq(|items|, m requires 0 <= m < |items| => ItemLabel(k, m))
  {
    if items != [] {
      var n := |items| - 1;
      ItemsNumbered(k, items[..n], includeImages, fileExists);
      ItemBlocksRead(k, n, items[n], includeImages, fileExists);
      NumbersAppend(ItemsBlocks(k, items[..n], includeImages, fileExists),
                    ItemBlocks(k, n, items[n], includeImages, fileExists));
      Labels(k, n + 1);
    }
  }

  /** The labels of the first `count` items of section `k`. */
  lemma Labels(k: nat, count: nat)
    requires count > 0
    ensures seq(count, m requires 0 <= m < count => ItemLabel(k, m))
            == seq(count - 1, m requires 0 <= m < count - 1 => ItemLabel(k, m)) + [ItemLabel(k, count - 1)]
  {
  }

  /** The minutes shown on a section's items add up to the section's minutes. */
  lemma {:induction false} ItemsShowMinutes(k: nat, items: seq<DocItem>, includeImages: bool, fileExists: string -> bool)
    ensures ShownMinutes(ItemsBlocks(k, items, includeImages, fileExists)) == ItemsMinutes(items)
  {
    if items != [] {
      var n := |items| - 1;
      ItemsShowMinutes(k, items[..n], includeImages, fileExists);
      ItemBlocksRead(k, n, items[n], includeImages, fileExists);
      ShownAppend(ItemsBlocks(k, items[..n], includeImages, fileExists),
                  ItemBlocks(k, n, items[n], includeImages, fileExists));
    }
  }

  /** The headings of the walk are "1. title", "2. title", ..., one per
      section, in order. */
  lemma {:induction false} SectionsHeaded(sections: seq<DocSection>, includeImages: bool, fileExists: string -> bool)
    ensures Headings(SectionsBlocks(sections, includeImages, fileExists))
            == seq(|sections|, k requires 0 <= k < |sections| => SectionHeading(k, sections[k].title))
  {
    if sections != [] {
      var k := |sections| - 1;
      var before := SectionsBlocks(sections[..k], includeImages, fileExists);
      var heading := [HeadingPara(SectionHeading(k, sections[k].title))];
      var items := ItemsBlocks(k, sections[k].items, includeImages, fileExists);
      SectionsHeaded(sections[..k], includeImages, fileExists);
      ItemsHaveNoHeadings(k, sections[k].items, includeImages, fileExists);
      HeadingsAppend(before, heading);
      HeadingsAppend(before + heading, items);
      assert heading[..0] == [];
      Assoc(Headings(before), Headings(heading), Headings(items));
      HeadingTexts(sections);
    }
  }

  /** The headings of all sections: those of all but the last, then the
      last one's. */
  lemma HeadingTexts(sections: seq<DocSection>)
    requires sections != []
    ensures var k := |sections| - 1;
      seq(|sections|, i requires 0 <= i < |sections| => SectionHeading(i, sections[i].title))
      == seq(k, i requires 0 <= i < k => SectionHeading(i, sections[..k][i].title))
         + [SectionHeading(k, sections[k].title)]
  {
  }

  /** The minutes shown on all items add up to the total. */
  lemma {:induction false} SectionsShowMinutes(sections: seq<DocSection>, includeImages: bool, fileExists: string -> bool)
    ensures ShownMinutes(SectionsBlocks(sections, includeImages, fileExists)) == SectionsMinutes(sections)
  {
    if sections != [] {
      var k := |sections| - 1;
      var before := SectionsBlocks(sections[..k], includeImages, fileExists);
      var heading := [HeadingPara(SectionHeading(k, sections[k].title))];
      var items := ItemsBlocks(k, sections[k].items, includeImages, fileExists);
      SectionsShowMinutes(sections[..k], includeImages, fileExists);
      ItemsShowMinutes(k, sections[k].items, includeImages, fileExists);
      ShownAppend(before, heading);
      ShownAppend(before + heading, items);
      assert heading[..0] == [];
    }
  }

  /** The total in the table is the sum of the minutes shown on the items. */
  lemma RenderedTotalMatchesItems(spec: DocSpec, includeImages: bool, fileExists: string -> bool)
    ensures var doc := Render(spec, includeImages, fileExists);
      doc[|doc| - 1] == TotalTable(TotalLabel, TotalString(ShownMinutes(SectionsBlocks(spec.sections, includeImages, fileExists))))
  {
    SectionsShowMinutes(spec.sections, includeImages, fileExists);
  }

  /** With `includeImages` false no screenshot is embedded anywhere. */
  lemma {:induction false} NoImagesWhenExcluded(sections: seq<DocSection>, fileExists: string -> bool)
    ensures NoImages(SectionsBlocks(sections, false, fileExists))
  {
    if sections != [] {
      var k := |sections| - 1;
      NoImagesWhenExcluded(sections[..k], fileExists);
      NoItemImagesWhenExcluded(k, sections[k].items, fileExists);
    }
  }

  lemma {:induction false} NoItemImagesWhenExcluded(k: nat, items: seq<DocItem>, fileExists: string -> bool)
    ensures NoImages(ItemsBlocks(k, items, false, fileExists))
  {
    if items != [] {
      NoItemImagesWhenExcluded(k, items[..|items| - 1], fileExists);
    }
  }

  // ---------------------------------------------------------------------
  // generateDoc
  // ---------------------------------------------------------------------

  /** `item.attachments.forEach(...)`: pushes one screenshot per image
      attachment whose file exists, in attachment order. */
  method AppendImages(children: seq<Block>, atts: seq<Attachment>, fileExists: string -> bool)
    returns (result: seq<Block>)
    ensures result == children + ImageBlocks(atts, fileExists)
  {
    result := children;
    var a := 0;
    while a < |atts|
      invariant a <= |atts|
      invariant result == children + ImageBlocks(atts[..a], fileExists)
    {
      var att := atts[a];
      assert atts[..a + 1][..a] == atts[..a];
      if att.mimetype.Some? && StartsWith(att.mimetype.value, "image/") {
        if fileExists(att.path) {
          var kind := if att.mimetype.value == "image/png" then Png else Jpg;
          result := result + [ImagePara(att.path, kind)];
        }
      }
      a := a + 1;
    }
    assert atts[..a] == atts;
  }

  /** One more item extends the paragraphs and the minutes of a section. */
  lemma ItemsSnoc(k: nat, items: seq<DocItem>, m: nat, includeImages: bool, fileExists: string -> bool)
    requires m < |items|
    ensures ItemsBlocks(k, items[..m + 1], includeImages, fileExists)
         == ItemsBlocks(k, items[..m], includeImages, fileExists) + ItemBlocks(k, m, items[m], includeImages, fileExists)
    ensures ItemsMinutes(items[..m + 1]) == ItemsMinutes(items[..m]) + Minutes(items[m].timeEstimate)
  {
    assert items[..m + 1][..m] == items[..m];
  }

  /** One more section extends the paragraphs and the minutes of the document. */
  lemma SectionsSnoc(sections: seq<DocSection>, k: nat, includeImages: bool, fileExists: string -> bool)
    requires k < |sections|
    ensures SectionsBlocks(sections[..k + 1], includeImages, fileExists)
         == SectionsBlocks(sections[..k], includeImages, fileExists)
            + [HeadingPara(SectionHeading(k, sections[k].title))]
            + ItemsBlocks(k, sections[k].items, includeImages, fileExists)
    ensures SectionsMinutes(sections[..k + 1]) == SectionsMinutes(sections[..k]) + ItemsMinutes(sections[k].items)
  {
    assert sections[..k + 1][..k] == sections[..k];
  }

  /** The callback of `section.items.forEach` for item `m` of section `k`:
      pushes the item paragraph and, when images are included and the
      relation is loaded, the item's screenshots; adds a truthy estimate. */
  method AppendItem(children: seq<Block>, totalMinutes: nat, k: nat, m: nat, item: DocItem,
                    includeImages: bool, fileExists: string -> bool)
    returns (result: seq<Block>, total: nat)
    ensures result == children + ItemBlocks(k, m, item, includeImages, fileExists)
    ensures total == totalMinutes + Minutes(item.timeEstimate)
  {
    var timeStr := if item.timeEstimate.Some? && item.timeEstimate.value != 0
      then " [" + NatToString(item.timeEstimate.value) + " мин]"
      else "";
    total := totalMinutes;
    if item.timeEstimate.Some? && item.timeEstimate.value != 0 {
      total := total + item.timeEstimate.value;
    }
    result := children + [ItemPara(ItemLabel(k, m), item.content, timeStr)];
    if includeImages && item.attachments.Some? {
      result := AppendImages(result, item.attachments.value, fileExists);
    }
  }

  /** The callback of `spec.sections.forEach` for section `k`: pushes the
      heading, then walks the items in order. */
  method AppendSection(children: seq<Block>, totalMinutes: nat, k: nat, section: DocSection,
                       includeImages: bool, fileExists: string -> bool)
    returns (result: seq<Block>, total: nat)
    ensures result == children + [HeadingPara(SectionHeading(k, section.title))]
                      + ItemsBlocks(k, section.items, includeImages, fileExists)
    ensures total == totalMinutes + ItemsMinutes(section.items)
  {
    var items := section.items;
    result := children + [HeadingPara(SectionHeading(k, section.title))];
    total := totalMinutes;
    ghost var start := result;
    var m := 0;
    while m < |items|
      invariant m <= |items|
      invariant result == start + ItemsBlocks(k, items[..m], includeImages, fileExists)
      invariant total == totalMinutes + ItemsMinutes(items[..m])
    {
      ItemsSnoc(k, items, m, includeImages, fileExists);
      result, total := AppendItem(result, total, k, m, items[m], includeImages, fileExists);
      Assoc(start, ItemsBlocks(k, items[..m], includeImages, fileExists),
            ItemBlocks(k, m, items[m], includeImages, fileExists));
      m := m + 1;
    }
    assert items[..m] == items;
    Assoc(children, [HeadingPara(SectionHeading(k, section.title))],
          ItemsBlocks(k, items, includeImages, fileExists));
  }

  /** `generateDoc(spec, includeImages)`: the walk pushes exactly the blocks
      of `Render`, in that order, and the running total ends as the sum of all
      truthy estimates. */
  method GenerateDoc(spec: DocSpec, includeImages: bool, fileExists: string -> bool)
    returns (children: seq<Block>, totalMinutes: nat)
    ensures children == Render(spec, includeImages, fileExists)
    ensures totalMinutes == SectionsMinutes(spec.sections)
  {
    var sections := spec.sections;
    var head := [TitlePara(DocTitle(spec.title)), DatePara(spec.createdAt)];
    children := head;
    totalMinutes := 0;
    var k := 0;
    while k < |sections|
      invariant k <= |sections|
      invariant children == head + SectionsBlocks(sections[..k], includeImages, fileExists)
      invariant totalMinutes == SectionsMinutes(sections[..k])
    {
      SectionsSnoc(sections, k, includeImages, fileExists);
      children, totalMinutes := AppendSection(children, totalMinutes, k, sections[k], includeImages, fileExists);
      Assoc3(head, SectionsBlocks(sections[..k], includeImages, fileExists), [HeadingPara(SectionHeading(k, sections[k].title))], ItemsBlocks(k, sections[k].items, includeImages, fileExists));
      k := k + 1;
    }
    assert sections[..k] == sections;
    assert children == head + SectionsBlocks(spec.sections, includeImages, fileExists);
    assert totalMinutes == SectionsMinutes(spec.sections);
    var hours := totalMinutes / 60;
    var mins := totalMinutes % 60;
    var totalStr := if hours > 0
      then HourForm(NatToString(hours), NatToString(mins))
      else MinuteForm(NatToString(totalMinutes));
    assert totalStr == TotalString(totalMinutes);
    children := children + [Spacer, TotalTable(TotalLabel, totalStr)];
  }
}
