/** The pure parts of the menus of source/main.cpp: the cursor movement of
    both menus, the checkboxes of the feature menu, and the `packages=`
    queries built from those checkboxes. */
module Menu {

  /** The buttons of source/input.h. */
  datatype Button = A | Up | Down | Plus | Any

  /** One frame's cursor update: a DOWN trigger moves down unless the cursor is
      on the last item, then an UP trigger moves up unless it is on the first. */
  function CursorStep(c: int, last: int, pressed: set<Button>): (r: int)
    ensures 0 <= c <= last ==> 0 <= r <= last
    ensures c - 1 <= r <= c + 1
    ensures Up !in pressed && Down !in pressed ==> r == c
    ensures Down in pressed && Up !in pressed ==> r == (if c != last then c + 1 else c)
    ensures Up in pressed && Down !in pressed ==> r == (if c != 0 then c - 1 else c)
    ensures Up in pressed && Down in pressed && 0 <= c ==> r == (if c == last && c != 0 then c - 1 else c)
  {
    var moved := if Down in pressed && c != last then c + 1 else c;
    if Up in pressed && moved != 0 then moved - 1 else moved
  }

  /** The cursor after a run of frames whose triggers are `frames`, first frame first. */
  function CursorAfter(c: int, last: int, frames: seq<set<Button>>): (r: int)
    ensures 0 <= c <= last ==> 0 <= r <= last
    ensures c - |frames| <= r <= c + |frames|
    decreases frames
  {
    if frames == [] then c
    else CursorAfter(CursorStep(c, last, frames[0]), last, frames[1..])
  }

  /** The last item of the main menu (Tiramisu, vWii files, Aroma). */
  const MainLast := 2
  /** The last item of the Aroma feature menu. */
  const FeatureLast := 6

  /** The seven checkboxes of the Aroma feature menu, in menu order. */
  datatype Features = Features(
    nandDumper: bool,
    fwImgLoader: bool,
    bloopair: bool,
    wiiload: bool,
    ftpiiu: bool,
    sdcafiine: bool,
    usbSerialLogging: bool)

  /** Every checkbox starts unticked. */
  const NoFeatures := Features(false, false, false, false, false, false, false)

  /** The checkbox on menu line `i`. */
  function Flag(f: Features, i: int): (ticked: bool)
    requires 0 <= i <= FeatureLast
    ensures f == NoFeatures ==> !ticked
  {
    match i
    case 0 => f.nandDumper
    case 1 => f.fwImgLoader
    case 2 => f.bloopair
    case 3 => f.wiiload
    case 4 => f.ftpiiu
    case 5 => f.sdcafiine
    case _ => f.usbSerialLogging
  }

  /** Pressing A in the feature menu with the cursor at `pos`. */
  function Toggle(f: Features, pos: int): (r: Features)
    ensures forall i :: 0 <= i <= FeatureLast ==>
      Flag(r, i) == (if i == pos then !Flag(f, i) else Flag(f, i))
    ensures !(0 <= pos <= FeatureLast) ==> r == f
  {
    match pos
    case 0 => f.(nandDumper := !f.nandDumper)
    case 1 => f.(fwImgLoader := !f.fwImgLoader)
    case 2 => f.(bloopair := !f.bloopair)
    case 3 => f.(wiiload := !f.wiiload)
    case 4 => f.(ftpiiu := !f.ftpiiu)
    case 5 => f.(sdcafiine := !f.sdcafiine)
    case 6 => f.(usbSerialLogging := !f.usbSerialLogging)
    case _ => f
  }

  /** Two presses of A on the same line leave every checkbox as it was. */
  lemma ToggleTwice(f: Features, pos: int)
    ensures Toggle(Toggle(f, pos), pos) == f
  {
    if pos == 0 {
    } else if pos == 1 {
    } else if pos == 2 {
    } else if pos == 3 {
    } else if pos == 4 {
    } else if pos == 5 {
    } else if pos == 6 {
    }
  }

  /** The fixed start of both Aroma download URLs. */
  const AromaApi := "https://aroma.foryour.cafe/api/download?packages="

  /** The payload query: `environmentloader`, then the ticked payloads, each after a comma. */
  function PayloadQuery(f: Features): (q: string)
    ensures "environmentloader" <= q
    ensures |q| <= 17 + 24 + 14
    ensures !f.nandDumper && !f.fwImgLoader ==> q == "environmentloader"
  {
    "environmentloader"
      + (if f.nandDumper then ",wiiu-nanddumper-payload" else "")
      + (if f.fwImgLoader then ",fw_img_loader" else "")
  }

  /** The plugin query: `bloopair` without a comma, every later plugin with one. */
  function PluginQuery(f: Features): (q: string)
    ensures |q| <= 8 + 8 + 7 + 10 + 16
    ensures f.bloopair ==> "bloopair" <= q
    ensures !f.bloopair && q != [] ==> q[0] == ','
    ensures q == [] <==> !f.bloopair && !f.wiiload && !f.ftpiiu && !f.sdcafiine && !f.usbSerialLogging
  {
    (if f.bloopair then "bloopair" else "")
      + ((if f.wiiload then ",wiiload" else "")
      + (if f.ftpiiu then ",ftpiiu" else "")
      + (if f.sdcafiine then ",sdcafiine" else "")
      + (if f.usbSerialLogging then ",usbseriallogger" else ""))
  }

  /** The URL the payloads are fetched from; it fits the 1024-byte buffer it is formatted into. */
  function PayloadUrl(f: Features): (url: string)
    ensures |url| < 1024
    ensures AromaApi <= url
  {
    AromaApi + PayloadQuery(f)
  }

  /** The URL the plugins are fetched from; it fits the same buffer. */
  function PluginUrl(f: Features): (url: string)
    ensures |url| < 1024
    ensures AromaApi <= url
  {
    AromaApi + PluginQuery(f)
  }

  // A reference definition of the queries: the names of the ticked packages,
  // joined by commas.

  /** `names` separated by single commas. */
  function Join(names: seq<string>): string
  {
    if names == [] then ""
    else if |names| == 1 then names[0]
    else names[0] + "," + Join(names[1..])
  }

  /** Every name, each preceded by a comma: the shape the `%s` chains build. */
  function Commas(names: seq<string>): string
  {
    if names == [] then "" else "," + names[0] + Commas(names[1..])
  }

  function Opt(ticked: bool, name: string): seq<string>
  {
    if ticked then [name] else []
  }

  /** The payload packages requested, in query order. */
  function SelectedPayloads(f: Features): (r: seq<string>)
    ensures |r| >= 1 && r[0] == "environmentloader"
  {
    ["environmentloader"] + Opt(f.nandDumper, "wiiu-nanddumper-payload") + Opt(f.fwImgLoader, "fw_img_loader")
  }

  /** The plugin packages requested, in query order. */
  function SelectedPlugins(f: Features): seq<string>
  {
    Opt(f.bloopair, "bloopair") + LaterPlugins(f)
  }

  function LaterPlugins(f: Features): seq<string>
  {
    Opt(f.wiiload, "wiiload") + Opt(f.ftpiiu, "ftpiiu") + Opt(f.sdcafiine, "sdcafiine")
      + Opt(f.usbSerialLogging, "usbseriallogger")
  }

  lemma {:induction false} CommasAppend(a: seq<string>, b: seq<string>)
    ensures Commas(a + b) == Commas(a) + Commas(b)
  {
    if a == [] {
      assert a + b == b;
    } else {
      assert (a + b)[1..] == a[1..] + b;
      CommasAppend(a[1..], b);
    }
  }

  lemma {:induction false} JoinIsHeadThenCommas(names: seq<string>)
    requires names != []
    ensures Join(names) == names[0] + Commas(names[1..])
  {
    if |names| > 1 {
      JoinIsHeadThenCommas(names[1..]);
    }
  }

  /** The comma-led literals of the queries are a comma followed by the package name. */
  lemma CommaLiterals()
    ensures ",wiiu-nanddumper-payload" == "," + "wiiu-nanddumper-payload"
    ensures ",fw_img_loader" == "," + "fw_img_loader"
    ensures ",wiiload" == "," + "wiiload"
    ensures ",ftpiiu" == "," + "ftpiiu"
    ensures ",sdcafiine" == "," + "sdcafiine"
    ensures ",usbseriallogger" == "," + "usbseriallogger"
  {
  }

  lemma CommasOpt(ticked: bool, name: string)
    ensures Commas(Opt(ticked, name)) == if ticked then "," + name else ""
  {
  }

  /** The `%s` chain of the payload query, for any names. */
  lemma {:induction false} HeadThenOptionals(head: string, x: string, tickX: bool, y: string, tickY: bool)
    ensures head + (if tickX then "," + x else "") + (if tickY then "," + y else "")
      == Join([head] + Opt(tickX, x) + Opt(tickY, y))
  {
    var names := [head] + Opt(tickX, x) + Opt(tickY, y);
    assert names[0] == head;
    assert names[1..] == Opt(tickX, x) + Opt(tickY, y);
    JoinIsHeadThenCommas(names);
    CommasAppend(Opt(tickX, x), Opt(tickY, y));
    CommasOpt(tickX, x);
    CommasOpt(tickY, y);
    var cx := if tickX then "," + x else "";
    var cy := if tickY then "," + y else "";
    assert Join(names) == head + (cx + cy);
    assert head + (cx + cy) == head + cx + cy;
  }

  /** The `%s` chain of four comma-led optional names, for any names. */
  lemma {:induction false} FourOptionals(
    a: string, tickA: bool, b: string, tickB: bool, c: string, tickC: bool, d: string, tickD: bool)
    ensures (if tickA then "," + a else "") + (if tickB then "," + b else "")
      + (if tickC then "," + c else "") + (if tickD then "," + d else "")
      == Commas(Opt(tickA, a) + Opt(tickB, b) + Opt(tickC, c) + Opt(tickD, d))
  {
    CommasAppend(Opt(tickA, a), Opt(tickB, b));
    CommasAppend(Opt(tickA, a) + Opt(tickB, b), Opt(tickC, c));
    CommasAppend(Opt(tickA, a) + Opt(tickB, b) + Opt(tickC, c), Opt(tickD, d));
    CommasOpt(tickA, a);
    CommasOpt(tickB, b);
    CommasOpt(tickC, c);
    CommasOpt(tickD, d);
  }

  /** The payload query lists `environmentloader` and then exactly the ticked
      payloads, in menu order, separated by commas. */
  lemma PayloadQueryIsJoin(f: Features)
    ensures PayloadQuery(f) == Join(SelectedPayloads(f))
  {
    CommaLiterals();
    HeadThenOptionals("environmentloader", "wiiu-nanddumper-payload", f.nandDumper, "fw_img_loader", f.fwImgLoader);
  }

  /** An optional head without a comma followed by comma-led names is the comma
      join of all of them, led by a stray comma when the head is absent. */
  lemma {:induction false} HeadlessJoin(h: string, tickH: bool, later: seq<string>)
    ensures (if tickH then h else "") + Commas(later)
      == (if !tickH && later != [] then "," else "") + Join(Opt(tickH, h) + later)
  {
    var names := Opt(tickH, h) + later;
    if tickH {
      assert names == [h] + later;
      assert names[1..] == later;
      JoinIsHeadThenCommas(names);
    } else {
      assert names == later;
      if later != [] {
        JoinIsHeadThenCommas(later);
      }
    }
  }

  /** The plugin query lists exactly the ticked plugins in menu order, separated
      by commas, except that it starts with a stray comma when Bloopair is not
      ticked and some later plugin is. */
  lemma PluginQueryShape(f: Features)
    ensures PluginQuery(f) ==
      (if !f.bloopair && SelectedPlugins(f) != [] then "," else "") + Join(SelectedPlugins(f))
    ensures f.bloopair || SelectedPlugins(f) == [] ==> PluginQuery(f) == Join(SelectedPlugins(f))
  {
    CommaLiterals();
    var later := LaterPlugins(f);
    FourOptionals("wiiload", f.wiiload, "ftpiiu", f.ftpiiu, "sdcafiine", f.sdcafiine,
      "usbseriallogger", f.usbSerialLogging);
    HeadlessJoin("bloopair", f.bloopair, later);
  }
}
