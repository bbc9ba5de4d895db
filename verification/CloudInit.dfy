/** Rendering cloud-config as one bash script (internal/cloudinit/cloudinit.go). */
module CloudInit {
  import opened Objects
  import opened Shell
  import opened ShellReading
  import opened Base64

  /** A write_files entry with its content decoded. */
  datatype File = File(path: string, append: bool, content: seq<Byte>, owner: string, permissions: string)

  /** A bootcmd or runcmd entry as parsed: shell text, a list, or something else. */
  datatype Arg = Str(text: string) | NotAString

  datatype Entry = Line(text: string) | Argv(args: seq<Arg>) | NeitherStringNorList

  const HeredocDelimiter := "KGENESIS_B64_EOF"

  const Width: nat := 76

  // ---- what the script is, piece by piece

  function ShellQuote(s: string): string {
    "'" + QuoteBody(s) + "'"
  }

  function LastSlash(path: string): (i: int)
    ensures -1 <= i < |path|
    ensures i >= 0 ==> path[i] == '/'
    ensures forall j :: i < j < |path| ==> path[j] != '/'
  {
    if path == "" then -1
    else if path[|path| - 1] == '/' then |path| - 1
    else LastSlash(path[..|path| - 1])
  }

  /** The directory: everything before the last slash, "/" when there is nothing. */
  function DirOf(path: string): (dir: string)
    ensures forall i :: 0 < i < |path| && path[i] == '/' && '/' !in path[i + 1..] ==> dir == path[..i]
    ensures '/' !in path || '/' !in path[1..] ==> dir == "/"
  {
    var i := LastSlash(path);
    assert i >= 0 ==> path[i] == '/';
    if i <= 0 then "/" else assert path[1..][i - 1] == '/'; path[..i]
  }

  function Wrapped(encoded: string): string
    decreases |encoded|
  {
    if |encoded| > Width then encoded[..Width] + "\n" + Wrapped(encoded[Width..]) else encoded + "\n"
  }

  function DirLine(path: string): string {
    "install -d -m 0755 " + (ShellQuote(DirOf(path)) + "\n")
  }

  function BlockHead(delimiter: string, redirect: string, path: string): string {
    "base64 -d " + ("<<" + ("'" + delimiter + "'") + " ") + (redirect + " ") + ShellQuote(path) + "\n"
  }

  function BlockText(delimiter: string, f: File): string {
    BlockHead(delimiter, if f.append then ">>" else ">", f.path) + Wrapped(Encode(f.content)) + delimiter + "\n"
  }

  /** chown and chmod lines, for what the entry names. */
  function SettingLine(tool: string, value: string, path: string): string {
    if value != "" then tool + " " + (ShellQuote(value) + " " + ShellQuote(path) + "\n") else ""
  }

  function FileText(f: File): string {
    DirLine(f.path) + BlockText(HeredocDelimiter, f) + SettingLine("chown", f.owner, f.path) + SettingLine("chmod", f.permissions, f.path)
  }

  function FilesText(files: seq<File>): string {
    if files == [] then "" else FilesText(files[..|files| - 1]) + FileText(files[|files| - 1])
  }

  function Joined(parts: seq<string>): string {
    if |parts| == 0 then ""
    else if |parts| == 1 then parts[0]
    else parts[0] + " " + Joined(parts[1..])
  }

  function Quotes(args: seq<string>): (q: seq<string>)
    ensures |q| == |args|
  {
    seq(|args|, i requires 0 <= i < |args| => ShellQuote(args[i]))
  }

  predicate AllStrings(args: seq<Arg>) {
    forall i :: 0 <= i < |args| ==> args[i].Str?
  }

  function Strings(args: seq<Arg>): seq<string>
    requires AllStrings(args)
  {
    seq(|args|, i requires 0 <= i < |args| => args[i].text)
  }

  /** A string is shell; a list is an argv vector the shell must not re-interpret. */
  function CommandText(e: Entry): Option<string> {
    match e
    case Line(text) => Some(text)
    case Argv(args) => if AllStrings(args) then Some(Joined(Quotes(Strings(args)))) else None
    case NeitherStringNorList => None
  }

  function Guarded(line: string): string {
    "{\n" + line + "\n} || exit $?"
  }

  predicate AllRender(entries: seq<Entry>) {
    forall i :: 0 <= i < |entries| ==> CommandText(entries[i]).Some?
  }

  function EntriesText(entries: seq<Entry>): string
    requires AllRender(entries)
  {
    if entries == [] then ""
    else EntriesText(entries[..|entries| - 1]) + (Guarded(CommandText(entries[|entries| - 1]).value) + "\n")
  }

  function SectionText(title: string, entries: seq<Entry>): string
    requires AllRender(entries)
  {
    if entries == [] then "" else "#" + title + "\n" + EntriesText(entries) + "\n"
  }

  const Interpreter := "!/usr/bin/env bash"
  const Shebang := "#" + Interpreter + "\n"
  // One line, in two pieces that HeaderIsComments looks through one at a time.
  const Origin := " Generated by kg from Cluster API " + "bootstrap data. Do not edit."
  const Notice := "#" + Origin + "\n"
  const SetLine := "set -euo pipefail\n"
  const BootTitle := "## bootcmd"
  const RunTitle := "## runcmd"

  function FileSection(files: seq<File>): string {
    if files == [] then "" else "### write_files\n" + FilesText(files) + "\n"
  }

  function ScriptText(files: seq<File>, boot: seq<Entry>, run: seq<Entry>): Option<string> {
    if AllRender(boot) && AllRender(run) then
      Some(Shebang + Notice + SetLine + "\n" + FileSection(files) + SectionText(BootTitle, boot) + SectionText(RunTitle, run))
    else None
  }

  // ---- the code

  /** wrapBase64 */
  method WrapBase64(data: seq<Byte>) returns (r: string)
    ensures r == Wrapped(Encode(data))
  {
    var encoded := Encode(data);
    r := "";
    while |encoded| > Width
      invariant r + Wrapped(encoded) == Wrapped(Encode(data))
      decreases |encoded|
    {
      r := r + encoded[..Width];
      r := r + "\n";
      encoded := encoded[Width..];
    }
    r := r + encoded;
    r := r + "\n";
  }

  method RenderFile(f: File) returns (r: string)
    ensures r == FileText(f)
  {
    var redirect := ">";
    if f.append { redirect := ">>"; }
    r := DirLine(f.path);
    var block := BlockHead(HeredocDelimiter, redirect, f.path);
    var payload := WrapBase64(f.content);
    block := block + payload;
    block := block + HeredocDelimiter + "\n";
    r := r + block;
    r := r + SettingLine("chown", f.owner, f.path);
    r := r + SettingLine("chmod", f.permissions, f.path);
  }

  /** An entry that is neither a string nor a list of strings. */
  ghost predicate NoCommand(e: Entry) {
    e.NeitherStringNorList? || (e.Argv? && exists i :: 0 <= i < |e.args| && e.args[i].NotAString?)
  }

  method RenderCommand(e: Entry) returns (r: Option<string>)
    ensures r == CommandText(e)
    ensures e.Line? ==> r == Some(e.text)
    ensures r == None <==> NoCommand(e)
  {
    match e
    case Line(text) => r := Some(text);
    case Argv(args) =>
      var parts := [];
      for i := 0 to |args|
        invariant forall j :: 0 <= j < i ==> args[j].Str?
        invariant |parts| == i && forall j :: 0 <= j < i ==> parts[j] == ShellQuote(args[j].text)
      {
        if args[i].NotAString? { return None; }
        parts := parts + [ShellQuote(args[i].text)];
      }
      assert parts == Quotes(Strings(args));
      r := Some(Joined(parts));
    case NeitherStringNorList => r := None;
  }

  method RenderSection(title: string, entries: seq<Entry>) returns (r: Option<string>)
    ensures r == if AllRender(entries) then Some(SectionText(title, entries)) else None
    ensures r == None <==> exists i :: 0 <= i < |entries| && NoCommand(entries[i])
  {
    if entries == [] { return Some(""); }
    var commands := "";
    for i := 0 to |entries|
      invariant AllRender(entries[..i]) && commands == EntriesText(entries[..i])
      invariant forall j :: 0 <= j < i ==> !NoCommand(entries[j])
    {
      var line := RenderCommand(entries[i]);
      if line.None? { return None; }
      assert entries[..i + 1][..i] == entries[..i];
      commands := commands + (Guarded(line.value) + "\n");
    }
    assert entries[..|entries|] == entries;
    r := Some("#" + title + "\n" + commands + "\n");
  }

  method RenderFiles(files: seq<File>) returns (r: string)
    ensures r == FileSection(files)
  {
    if files == [] { return ""; }
    var blocks := "";
    for i := 0 to |files|
      invariant blocks == FilesText(files[..i])
    {
      var block := RenderFile(files[i]);
      assert files[..i + 1][..i] == files[..i];
      blocks := blocks + block;
    }
    assert files[..|files|] == files;
    r := "### write_files\n" + blocks + "\n";
  }

  /** Render, once the files are decoded and patched. */
  method Render(files: seq<File>, boot: seq<Entry>, run: seq<Entry>) returns (r: Option<string>)
    ensures r == ScriptText(files, boot, run)
    ensures r == None <==>
            (exists i :: 0 <= i < |boot| && NoCommand(boot[i])) || (exists i :: 0 <= i < |run| && NoCommand(run[i]))
  {
    var b := Shebang + Notice + SetLine + "\n";
    var section := RenderFiles(files);
    var bootcmd := RenderSection(BootTitle, boot);
    if bootcmd.None? { return None; }
    var runcmd := RenderSection(RunTitle, run);
    if runcmd.None? { return None; }
    r := Some(b + section + bootcmd.value + runcmd.value);
  }
}
