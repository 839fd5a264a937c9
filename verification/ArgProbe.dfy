/** Component arguments and the secure probes that must agree with them. */
module ArgProbe {
  import opened Model
  import PlanChange

  const SECURE_PORT_ARGUMENT := "secure-port"
  const CERT_DIR_ARGUMENT := "cert-dir"
  const TLS_CERT_FILE_ARGUMENT := "tls-cert-file"

  /** A configuration value: missing (or of an unknown type), a string, or a list whose elements are read as strings. */
  datatype Arg = Missing | Text(text: string) | List(items: seq<string>)

  /** splitArgKeyVal: the text before and after the first '=', or two empty strings when there is none. */
  function SplitArg(arg: string): (string, string) {
    if '=' !in arg then ("", "") else PlanChange.Cut(arg)
  }

  predicate Binds(arg: string, key: string) {
    SplitArg(arg).0 == key
  }

  /** getArgValue on a list: the value of the first argument with the key, or empty. */
  function ListValue(args: seq<string>, key: string): string {
    if args == [] then ""
    else if Binds(args[0], key) then SplitArg(args[0]).1
    else ListValue(args[1..], key)
  }

  function ArgValue(arg: Arg, key: string): string {
    match arg
    case Missing => ""
    case Text(text) => ListValue([text], key)
    case List(items) => ListValue(items, key)
  }

  /** convertInterfaceToStringSlice. */
  function Items(arg: Arg): seq<string> {
    match arg
    case Missing => []
    case Text(text) => [text]
    case List(items) => items
  }

  /** appendToInterface. */
  function Appended(arg: Arg, elem: string): seq<string> {
    match arg
    case Missing => [elem]
    case Text(text) => [text, elem]
    case List(items) => items + [elem]
  }

  function KeyVal(key: string, value: string): string {
    key + "=" + value
  }

  function Mount(dir: string): string {
    dir + ":" + dir
  }

  /** What the component is installed with: the default port, the default certificate directory and certificate, the
      runtime, and the function that takes the directory of a path. */
  datatype Component = Component(port: string, dir: string, cert: string, rke2: bool, dirOf: string -> string)

  datatype Rendered = Rendered(args: seq<string>, mounts: seq<string>)

  /** renderArgAndMount, step by step. */
  method RenderArgAndMount(arg: Arg, mount: Arg, k: Component) returns (args: seq<string>, mounts: seq<string>)
    ensures Rendered(args, mounts) == ArgsRendered(arg, mount, k)
  {
    args := Items(arg);
    mounts := Items(mount);
    var certDirMount := Mount(k.dir);
    var certDirArg := KeyVal(CERT_DIR_ARGUMENT, k.dir);
    var securePortArg := KeyVal(SECURE_PORT_ARGUMENT, k.port);
    if |args| > 0 {
      var certFile := ListValue(args, TLS_CERT_FILE_ARGUMENT);
      if certFile == "" {
        var certDir := ListValue(args, CERT_DIR_ARGUMENT);
        if certDir != "" {
          certDirArg := "";
          certDirMount := Mount(certDir);
        }
      } else {
        certDirArg := "";
        certDirMount := Mount(k.dirOf(certFile));
      }
      if ListValue(args, SECURE_PORT_ARGUMENT) != "" {
        securePortArg := "";
      }
    }
    if certDirArg != "" {
      args := Appended(arg, certDirArg);
    }
    if securePortArg != "" {
      args := Appended(List(args), securePortArg);
    }
    if k.rke2 {
      mounts := Appended(mount, certDirMount);
    }
  }

  /** The directory that is mounted: that of the given certificate file, or the given directory, or the default one. */
  function MountedDir(args: seq<string>, k: Component): string {
    var certFile, certDir := ListValue(args, TLS_CERT_FILE_ARGUMENT), ListValue(args, CERT_DIR_ARGUMENT);
    if certFile != "" then k.dirOf(certFile) else if certDir != "" then certDir else k.dir
  }

  /** The given arguments, with the certificate directory and the port added where they are not given. */
  function ArgsRendered(arg: Arg, mount: Arg, k: Component): Rendered {
    var args := Items(arg);
    var addDir := ListValue(args, TLS_CERT_FILE_ARGUMENT) == "" && ListValue(args, CERT_DIR_ARGUMENT) == "";
    var withDir := if addDir then args + [KeyVal(CERT_DIR_ARGUMENT, k.dir)] else args;
    var addPort := ListValue(args, SECURE_PORT_ARGUMENT) == "";
    Rendered(if addPort then withDir + [KeyVal(SECURE_PORT_ARGUMENT, k.port)] else withDir,
             if k.rke2 then Items(mount) + [Mount(MountedDir(args, k))] else Items(mount))
  }

  // ---------------------------------------------------------------- the probe

  function ProbePort(arg: Arg, k: Component): string {
    var port := ArgValue(arg, SECURE_PORT_ARGUMENT);
    if port == "" then k.port else port
  }

  function ProbeCert(arg: Arg, k: Component): string {
    var certFile := ArgValue(arg, TLS_CERT_FILE_ARGUMENT);
    if certFile != "" then certFile else
    var certDir := ArgValue(arg, CERT_DIR_ARGUMENT);
    (if certDir == "" then k.dir else certDir) + "/" + k.cert
  }

  /** renderSecureProbe; an empty address or port is an error. The URL is filled in with the address and the port. */
  function SecureProbe(arg: Arg, raw: Probe, host: string, k: Component, fill: (string, string, string) -> string)
    : Option<Probe>
  {
    if ProbePort(arg, k) == "" || host == "" then None
    else Some(raw.(caCert := ProbeCert(arg, k), url := fill(raw.url, host, ProbePort(arg, k))))
  }

  // ---------------------------------------------------------------- agreement

  lemma {:induction false} ValueAppended(args: seq<string>, more: seq<string>, key: string)
    ensures (exists i :: 0 <= i < |args| && Binds(args[i], key)) ==> ListValue(args + more, key) == ListValue(args, key)
    ensures !(exists i :: 0 <= i < |args| && Binds(args[i], key)) ==>
      ListValue(args + more, key) == ListValue(more, key) && ListValue(args, key) == ""
  {
    hide Binds, SplitArg;
    if args == [] {
      assert args + more == more;
    } else {
      assert (args + more)[1..] == args[1..] + more;
      ValueAppended(args[1..], more, key);
      assert forall i :: 0 <= i < |args[1..]| ==> args[1..][i] == args[i + 1];
      if Binds(args[0], key) { assert 0 <= 0 < |args| && Binds(args[0], key); }
      if exists i :: 0 <= i < |args| && Binds(args[i], key) {
        var i :| 0 <= i < |args| && Binds(args[i], key);
        if i > 0 { assert Binds(args[1..][i - 1], key); }
      }
    }
  }

  lemma {:induction false} CutKeyVal(key: string, value: string)
    requires '=' !in key
    ensures PlanChange.Cut(KeyVal(key, value)) == (key, value)
  {
    if key != "" {
      assert KeyVal(key, value)[1..] == KeyVal(key[1..], value);
      CutKeyVal(key[1..], value);
      assert key == [key[0]] + key[1..];
    } else {
      assert KeyVal("", value)[1..] == value;
    }
  }

  lemma SplitKeyVal(key: string, value: string)
    requires '=' !in key
    ensures SplitArg(KeyVal(key, value)) == (key, value)
  {
    CutKeyVal(key, value);
    assert KeyVal(key, value)[|key|] == '=';
  }

  /** The value that a list gives after one argument has been added to it. */
  lemma ValueAfter(args: seq<string>, key: string, added: string, value: string)
    requires '=' !in added
    ensures var after := ListValue(args + [KeyVal(added, value)], key);
      && (key != added ==> after == ListValue(args, key))
      && (key == added ==> after == ListValue(args, key) || (ListValue(args, key) == "" && after == value))
  {
    ValueAppended(args, [KeyVal(added, value)], key);
    SplitKeyVal(added, value);
  }

  /** For every argument, the probe that is made from the rendered arguments goes to the port that the first secure-port
      argument names, if it names one, and to the default port otherwise; adding the defaults does not change that. Its
      certificate is the given certificate file, or the certificate in the directory that is mounted. */
  lemma ProbeAgrees(arg: Arg, mount: Arg, k: Component)
    ensures var given, out := List(Items(arg)), List(ArgsRendered(arg, mount, k).args);
      && ProbePort(out, k) == ProbePort(given, k)
      && ProbeCert(out, k) == ProbeCert(given, k)
      && (k.rke2 ==>
            var mounts, dir := ArgsRendered(arg, mount, k).mounts, MountedDir(Items(arg), k);
            && mounts == Items(mount) + [Mount(dir)]
            && var file := ListValue(Items(arg), TLS_CERT_FILE_ARGUMENT);
               if file != "" then ProbeCert(out, k) == file && dir == k.dirOf(file)
               else ProbeCert(out, k) == dir + "/" + k.cert)
  {
    hide ListValue, KeyVal;
    var args := Items(arg);
    var dirArg := KeyVal(CERT_DIR_ARGUMENT, k.dir);
    var withDir := if ListValue(args, TLS_CERT_FILE_ARGUMENT) == "" && ListValue(args, CERT_DIR_ARGUMENT) == ""
                   then args + [dirArg] else args;
    ValueAfter(args, SECURE_PORT_ARGUMENT, CERT_DIR_ARGUMENT, k.dir);
    ValueAfter(args, TLS_CERT_FILE_ARGUMENT, CERT_DIR_ARGUMENT, k.dir);
    ValueAfter(args, CERT_DIR_ARGUMENT, CERT_DIR_ARGUMENT, k.dir);
    ValueAfter(withDir, SECURE_PORT_ARGUMENT, SECURE_PORT_ARGUMENT, k.port);
    ValueAfter(withDir, TLS_CERT_FILE_ARGUMENT, SECURE_PORT_ARGUMENT, k.port);
    ValueAfter(withDir, CERT_DIR_ARGUMENT, SECURE_PORT_ARGUMENT, k.port);
  }

  /** The first value with the key that is not empty, or empty. */
  function FirstNonEmpty(args: seq<string>, key: string): string {
    if args == [] then ""
    else if Binds(args[0], key) && SplitArg(args[0]).1 != "" then SplitArg(args[0]).1
    else FirstNonEmpty(args[1..], key)
  }

  lemma {:induction false} FirstIsNonEmpty(args: seq<string>, key: string)
    ensures ListValue(args, key) != "" ==> FirstNonEmpty(args, key) == ListValue(args, key)
  {
    hide Binds, SplitArg;
    if args != [] {
      FirstIsNonEmpty(args[1..], key);
    }
  }

  /** The probe uses the first secure port that is not empty, or the default, exactly when the first secure-port
      argument is not empty, or no later one names another port than the default. */
  lemma PortIsFirstNonEmpty(arg: Arg, mount: Arg, k: Component)
    ensures var args := Items(arg);
      var first, nonEmpty := ListValue(args, SECURE_PORT_ARGUMENT), FirstNonEmpty(args, SECURE_PORT_ARGUMENT);
      ProbePort(List(ArgsRendered(arg, mount, k).args), k) == (if nonEmpty == "" then k.port else nonEmpty) <==>
        first != "" || nonEmpty == "" || nonEmpty == k.port
  {
    hide ListValue, FirstNonEmpty, ArgsRendered;
    ProbeAgrees(arg, mount, k);
    FirstIsNonEmpty(Items(arg), SECURE_PORT_ARGUMENT);
  }

  /** An empty secure port hides a later one: the probe goes to the default port. */
  lemma EmptyPortHidesLaterOne(mount: Arg, k: Component, later: string)
    requires later != "" && later != k.port
    ensures var args := [KeyVal(SECURE_PORT_ARGUMENT, ""), KeyVal(SECURE_PORT_ARGUMENT, later)];
      && FirstNonEmpty(args, SECURE_PORT_ARGUMENT) == later
      && ProbePort(List(ArgsRendered(List(args), mount, k).args), k) == k.port
  {
    hide KeyVal, SplitArg, ArgsRendered;
    var args := [KeyVal(SECURE_PORT_ARGUMENT, ""), KeyVal(SECURE_PORT_ARGUMENT, later)];
    SplitKeyVal(SECURE_PORT_ARGUMENT, "");
    SplitKeyVal(SECURE_PORT_ARGUMENT, later);
    assert args[1..] == [KeyVal(SECURE_PORT_ARGUMENT, later)];
    ProbeAgrees(List(args), mount, k);
  }

  /** The secure probe made from the rendered arguments is the one made from the given ones. */
  lemma ProbeOfRendered(arg: Arg, mount: Arg, k: Component, raw: Probe, host: string,
                        fill: (string, string, string) -> string)
    ensures SecureProbe(List(ArgsRendered(arg, mount, k).args), raw, host, k, fill) ==
            SecureProbe(arg, raw, host, k, fill)
  {
    ProbeAgrees(arg, mount, k);
  }
}
