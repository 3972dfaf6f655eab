/** Local certificates (CertManager): where the bundled mkcert binary lives, how a
    wildcard certificate for a base domain is named, whether one is present,
    whether the local certificate authority is installed, and the
    install-then-generate flow. The file system is a set of paths and mkcert is
    an external program whose runs the caller decides (System.Machine). */
module CertManager {
  import opened Wrappers
  import opened Text
  import opened Types
  import opened System

  /** The bundled binary for the machine's architecture: arm64, or amd64 for
      every other architecture. */
  function MkcertBinaryName(arch: string): string {
    "mkcert-darwin-" + (if arch == "arm64" then "arm64" else "amd64")
  }

  /** `<resources>/bin/<binary>` when packaged, `<app>/resources/bin/<binary>`
      otherwise. */
  function MkcertPath(env: AppEnvironment): string {
    if env.isPackaged then PathJoin(PathJoin(env.resourcesPath, "bin"), MkcertBinaryName(env.arch))
    else PathJoin(PathJoin(PathJoin(env.appPath, "resources"), "bin"), MkcertBinaryName(env.arch))
  }

  /** The path ends in the arm64 binary's name exactly on arm64 and in the amd64
      binary's name on anything else. */
  lemma MkcertPathNamesBinary(env: AppEnvironment)
    ensures var p := MkcertPath(env);
            var name := if env.arch == "arm64" then "mkcert-darwin-arm64" else "mkcert-darwin-amd64";
            |p| >= |name| && p[|p| - |name|..] == name
  {
    assert MkcertBinaryName(env.arch) == if env.arch == "arm64" then "mkcert-darwin-arm64" else "mkcert-darwin-amd64";
  }

  lemma PrefixOfPrefix(a: string, b: string, c: string)
    requires |b| <= |a| && a[..|b|] == b
    requires |c| <= |b| && b[..|c|] == c
    ensures a[..|c|] == c
  {
    assert a[..|c|] == a[..|b|][..|c|];
  }

  /** The binary is looked up under the resources directory when packaged and
      under the application directory otherwise. */
  lemma MkcertPathUnderRoot(env: AppEnvironment)
    ensures var p := MkcertPath(env);
            var root := if env.isPackaged then env.resourcesPath else env.appPath;
            |p| >= |root| && p[..|root|] == root
  {
    var name := MkcertBinaryName(env.arch);
    var root := if env.isPackaged then env.resourcesPath else env.appPath;
    if root != "" {
      var res := if env.isPackaged then root else PathJoin(root, "resources");
      var bin := PathJoin(res, "bin");
      PrefixOfPrefix(PathJoin(bin, name), bin, res);
      PrefixOfPrefix(PathJoin(bin, name), res, root);
    }
  }

  /** Certificates are kept under the per-user data directory. */
  function CertsDir(env: AppEnvironment): string {
    PathJoin(env.userData, "certs")
  }

  datatype CertPaths = CertPaths(certPath: string, keyPath: string)

  function CertFileName(baseDomain: string): string {
    "_wildcard." + baseDomain + ".pem"
  }

  function KeyFileName(baseDomain: string): string {
    "_wildcard." + baseDomain + "-key.pem"
  }

  /** The names mkcert gives a wildcard certificate for `*.<baseDomain>`. */
  function GetCertPaths(certsDir: string, baseDomain: string): (p: CertPaths)
    ensures p.certPath == PathJoin(certsDir, CertFileName(baseDomain))
    ensures p.keyPath == PathJoin(certsDir, KeyFileName(baseDomain))
    ensures p.certPath != p.keyPath
  {
    var p := CertPaths(PathJoin(certsDir, CertFileName(baseDomain)),
                       PathJoin(certsDir, KeyFileName(baseDomain)));
    PathJoinInjective(certsDir, CertFileName(baseDomain), KeyFileName(baseDomain));
    assert |CertFileName(baseDomain)| != |KeyFileName(baseDomain)|;
    p
  }

  /** Different base domains get different certificate files. */
  lemma CertPathsInjective(certsDir: string, d1: string, d2: string)
    ensures GetCertPaths(certsDir, d1).certPath == GetCertPaths(certsDir, d2).certPath ==> d1 == d2
  {
    PathJoinInjective(certsDir, CertFileName(d1), CertFileName(d2));
    if CertFileName(d1) == CertFileName(d2) {
      assert |d1| == |d2|;
      assert CertFileName(d1)[10..10 + |d1|] == d1;
      assert CertFileName(d2)[10..10 + |d2|] == d2;
    }
  }

  /** The naming scheme is not collision free: the certificate file of the base
      domain `<d>-key` is the key file of the base domain `<d>`. */
  lemma CertOfKeyDomainIsKeyOfDomain(certsDir: string, d: string)
    ensures GetCertPaths(certsDir, d + "-key").certPath == GetCertPaths(certsDir, d).keyPath
  {
    assert CertFileName(d + "-key") == KeyFileName(d);
  }

  /** Neither certificate file is the directory that holds it. */
  lemma CertFilesAreNotDir(certsDir: string, baseDomain: string)
    ensures GetCertPaths(certsDir, baseDomain).certPath != certsDir
    ensures GetCertPaths(certsDir, baseDomain).keyPath != certsDir
  {
    var p := GetCertPaths(certsDir, baseDomain);
    assert |p.certPath| >= |certsDir| + |CertFileName(baseDomain)| || certsDir == "";
    assert |p.keyPath| >= |certsDir| + |KeyFileName(baseDomain)| || certsDir == "";
  }

  datatype CertCheck = CertCheck(present: bool, paths: Option<CertPaths>)

  /** `checkCertExists`: present exactly when both files exist, and the paths are
      reported exactly when present. */
  function CheckCertExists(certsDir: string, baseDomain: string, paths: set<string>): (r: CertCheck)
    ensures r.present <==> GetCertPaths(certsDir, baseDomain).certPath in paths
                           && GetCertPaths(certsDir, baseDomain).keyPath in paths
    ensures r.paths.Some? <==> r.present
    ensures r.paths.Some? ==> r.paths.value == GetCertPaths(certsDir, baseDomain)
  {
    var p := GetCertPaths(certsDir, baseDomain);
    var present := p.certPath in paths && p.keyPath in paths;
    CertCheck(present, if present then Some(p) else None)
  }

  /** Where the root certificate is looked for: `rootCA.pem` under the CAROOT
      directory mkcert prints, white space trimmed. */
  function RootCertPath(carootStdout: string): string {
    PathJoin(Trim(carootStdout), "rootCA.pem")
  }

  /** The answer of `isCAInstalled` given how `mkcert -CAROOT` ended and the paths
      that exist afterwards; a failed run is `false`, never an error. */
  function CAInstalled(caroot: ExecResult, paths: set<string>): (b: bool)
    ensures caroot.ExecFailed? ==> !b
  {
    caroot.Ran? && RootCertPath(caroot.stdout) in paths
  }

  /** mkcert ends its CAROOT line with a newline; the directory is still found. */
  lemma CARootLineIsTrimmed(dir: string, w1: string, w2: string, writes: set<string>, paths: set<string>)
    requires AllSpace(w1) && AllSpace(w2)
    requires dir != [] ==> !IsJsSpace(dir[0]) && !IsJsSpace(dir[|dir| - 1])
    ensures CAInstalled(Ran(w1 + dir + w2, writes), paths) <==> PathJoin(dir, "rootCA.pem") in paths
  {
    TrimPadded(w1, dir, w2);
  }

  function CaRootCommand(env: AppEnvironment): Command {
    Command(MkcertPath(env), ["-CAROOT"], None)
  }

  function InstallCommand(env: AppEnvironment): Command {
    Command(MkcertPath(env), ["-install"], None)
  }

  /** `mkcert "*.<baseDomain>"`, run inside the certificate directory. */
  function GenerateCommand(env: AppEnvironment, baseDomain: string): Command {
    Command(MkcertPath(env), ["*." + baseDomain], Some(CertsDir(env)))
  }

  /** The paths a run leaves behind: those it wrote, or none when it failed. */
  function Written(e: ExecResult): set<string> {
    if e.Ran? then e.writes else {}
  }

  function GenerateFailedMessage(baseDomain: string): string {
    "証明書の生成に失敗しました: " + baseDomain
  }

  class CertManager {
    const env: AppEnvironment
    const certsDir: string

    constructor (env: AppEnvironment)
      ensures this.env == env && certsDir == CertsDir(env)
    {
      this.env := env;
      certsDir := CertsDir(env);
    }

    /** `isCAInstalled`: one `mkcert -CAROOT` run; true exactly when the root
        certificate exists under the directory it prints. */
    method IsCAInstalled(m: Machine, caroot: ExecResult) returns (installed: bool)
      modifies m
      ensures m.commands == old(m.commands) + [CaRootCommand(env)]
      ensures m.paths == old(m.paths) + Written(caroot)
      ensures installed == CAInstalled(caroot, m.paths)
    {
      var r := m.Exec(CaRootCommand(env), caroot);
      if r.ExecFailed? {
        return false;
      }
      installed := m.Exists(RootCertPath(r.stdout));
    }

    /** `installCA`: one `mkcert -install` run; its failure is rethrown. */
    method InstallCA(m: Machine, install: ExecResult) returns (r: Outcome<string>)
      modifies m
      ensures m.commands == old(m.commands) + [InstallCommand(env)]
      ensures m.paths == old(m.paths) + Written(install)
      ensures r == if install.ExecFailed? then Fail(install.message) else Pass
    {
      var e := m.Exec(InstallCommand(env), install);
      r := if e.ExecFailed? then Fail(e.message) else Pass;
    }

    /** `generateCert`: creates the certificate directory when it is missing,
        runs mkcert there, and succeeds exactly when both files exist after the
        run. */
    method GenerateCert(m: Machine, baseDomain: string, mint: ExecResult)
      returns (r: Result<CertPaths, string>)
      requires certsDir == CertsDir(env)
      modifies m
      ensures m.commands == old(m.commands) + [GenerateCommand(env, baseDomain)]
      ensures m.paths == old(m.paths) + {certsDir} + Written(mint)
      ensures mint.ExecFailed? ==> r == Failure(mint.message)
      ensures mint.Ran? ==> (r.Success? <==> CheckCertExists(certsDir, baseDomain, m.paths).present)
      ensures mint.Ran? && r.Failure? ==> r.error == GenerateFailedMessage(baseDomain)
      ensures r.Success? ==> r.value == GetCertPaths(certsDir, baseDomain)
    {
      CertFilesAreNotDir(certsDir, baseDomain);
      if !m.Exists(certsDir) {
        m.MakeDirectory(certsDir);
      } else {
        assert m.paths == m.paths + {certsDir};
      }
      ghost var withDir := m.paths;
      var paths := GetCertPaths(certsDir, baseDomain);
      var e := m.Exec(Command(MkcertPath(env), ["*." + baseDomain], Some(certsDir)), mint);
      assert m.paths == withDir + Written(mint);
      if e.ExecFailed? {
        return Failure(e.message);
      }
      ghost var present := CheckCertExists(certsDir, baseDomain, m.paths).present;
      assert present <==> m.Exists(paths.certPath) && m.Exists(paths.keyPath);
      if !m.Exists(paths.certPath) || !m.Exists(paths.keyPath) {
        return Failure(GenerateFailedMessage(baseDomain));
      }
      r := Success(paths);
    }

    /** The steps of `ensureCert` once the bundle is known to be missing: the
        authority is installed exactly when `isCAInstalled` says it is not, and
        the certificate is then generated unless the installation failed. */
    method Provision(m: Machine, baseDomain: string, caroot: ExecResult, install: ExecResult,
                     mint: ExecResult) returns (r: Result<CertPaths, string>)
      requires certsDir == CertsDir(env)
      modifies m
      ensures var needInstall := !CAInstalled(caroot, old(m.paths) + Written(caroot));
              var installFailed := needInstall && install.ExecFailed?;
              && m.commands == (var c1 := old(m.commands) + [CaRootCommand(env)];
                                var c2 := if needInstall then c1 + [InstallCommand(env)] else c1;
                                if installFailed then c2 else c2 + [GenerateCommand(env, baseDomain)])
              && m.paths == (var p1 := old(m.paths) + Written(caroot);
                             var p2 := if needInstall then p1 + Written(install) else p1;
                             if installFailed then p2 else p2 + {certsDir} + Written(mint))
              && (installFailed ==> r == Failure(install.message))
              && (!installFailed && mint.ExecFailed? ==> r == Failure(mint.message))
              && (!installFailed && mint.Ran? ==>
                    (r.Success? <==> CheckCertExists(certsDir, baseDomain, m.paths).present))
      ensures r.Success? ==> r.value == GetCertPaths(certsDir, baseDomain)
                             && CheckCertExists(certsDir, baseDomain, m.paths).present
    {
      var caInstalled := IsCAInstalled(m, caroot);
      if !caInstalled {
        var installed := InstallCA(m, install);
        if installed.Fail? {
          return Failure(installed.error);
        }
      }
      r := GenerateCert(m, baseDomain, mint);
    }

    /** `ensureCert`: an existing bundle is returned as it is, with nothing run
        and nothing created; otherwise the certificate is provisioned. */
    method EnsureCert(m: Machine, baseDomain: string, caroot: ExecResult, install: ExecResult,
                      mint: ExecResult) returns (r: Result<CertPaths, string>)
      requires certsDir == CertsDir(env)
      modifies m
      ensures CheckCertExists(certsDir, baseDomain, old(m.paths)).present ==>
                r == Success(GetCertPaths(certsDir, baseDomain))
                && m.paths == old(m.paths) && m.commands == old(m.commands)
      ensures !CheckCertExists(certsDir, baseDomain, old(m.paths)).present ==>
                var needInstall := !CAInstalled(caroot, old(m.paths) + Written(caroot));
                var installFailed := needInstall && install.ExecFailed?;
                && m.commands == (var c1 := old(m.commands) + [CaRootCommand(env)];
                                  var c2 := if needInstall then c1 + [InstallCommand(env)] else c1;
                                  if installFailed then c2 else c2 + [GenerateCommand(env, baseDomain)])
                && m.paths == (var p1 := old(m.paths) + Written(caroot);
                               var p2 := if needInstall then p1 + Written(install) else p1;
                               if installFailed then p2 else p2 + {certsDir} + Written(mint))
                && (installFailed ==> r == Failure(install.message))
                && (!installFailed && mint.ExecFailed? ==> r == Failure(mint.message))
                && (!installFailed && mint.Ran? ==>
                      (r.Success? <==> CheckCertExists(certsDir, baseDomain, m.paths).present))
      ensures r.Success? ==> r.value == GetCertPaths(certsDir, baseDomain)
                             && CheckCertExists(certsDir, baseDomain, m.paths).present
    {
      var check := CheckCertExists(certsDir, baseDomain, m.paths);
      if check.present && check.paths.Some? {
        return Success(check.paths.value);
      }
      r := Provision(m, baseDomain, caroot, install, mint);
    }
  }
}
