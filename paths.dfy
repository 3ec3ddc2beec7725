/** The path registry: where each kind of configuration data is mounted into the
    pod, and where the ISO image built from it is written.  All of it is constant. */
module Paths {

  /** The configuration sources an image can be built from. */
  datatype Type = ConfigMap | Secret | DownwardAPI | ServiceAccount

  /** The string value each source type carries. */
  function TypeName(t: Type): string {
    match t
    case ConfigMap => "configmap"
    case Secret => "secret"
    case DownwardAPI => "downwardapi"
    case ServiceAccount => "serviceaccount"
  }

  const MOUNT_BASE_DIR := "/var/run/kubevirt-private"

  const CONFIG_MAP_SOURCE_DIR := MOUNT_BASE_DIR + "/config-map"
  const SECRET_SOURCE_DIR := MOUNT_BASE_DIR + "/secret"
  const DOWNWARD_API_SOURCE_DIR := MOUNT_BASE_DIR + "/downwardapi"
  // Mounted by Kubernetes itself, outside the private base directory, and written with a trailing slash.
  const SERVICE_ACCOUNT_SOURCE_DIR := "/var/run/secrets/kubernetes.io/serviceaccount/"

  const CONFIG_MAP_DISKS_DIR := MOUNT_BASE_DIR + "/config-map-disks"
  const SECRET_DISKS_DIR := MOUNT_BASE_DIR + "/secret-disks"
  const DOWNWARD_API_DISKS_DIR := MOUNT_BASE_DIR + "/downwardapi-disks"
  const SERVICE_ACCOUNT_DISK_DIR := MOUNT_BASE_DIR + "/service-account-disk"
  const SERVICE_ACCOUNT_DISK_NAME := "service-account.iso"

  /** The directory the data of a source type is mounted at. */
  function SourceDir(t: Type): string {
    match t
    case ConfigMap => CONFIG_MAP_SOURCE_DIR
    case Secret => SECRET_SOURCE_DIR
    case DownwardAPI => DOWNWARD_API_SOURCE_DIR
    case ServiceAccount => SERVICE_ACCOUNT_SOURCE_DIR
  }

  /** The directory the ISO images of a source type are written to. */
  function DisksDir(t: Type): string {
    match t
    case ConfigMap => CONFIG_MAP_DISKS_DIR
    case Secret => SECRET_DISKS_DIR
    case DownwardAPI => DOWNWARD_API_DISKS_DIR
    case ServiceAccount => SERVICE_ACCOUNT_DISK_DIR
  }

  predicate IsPrefix(p: string, s: string) {
    |p| <= |s| && s[..|p|] == p
  }

  /** Every registered directory is an absolute path. */
  lemma DirsAreAbsolute(t: Type)
    ensures |SourceDir(t)| > 1 && SourceDir(t)[0] == '/'
    ensures |DisksDir(t)| > 1 && DisksDir(t)[0] == '/'
  {
    assert MOUNT_BASE_DIR[0] == '/';
    assert (MOUNT_BASE_DIR + "/")[0] == '/';
  }

  /** Every image directory, and every source directory except the service
      account's, lies inside the private mount base directory. */
  lemma DirsUnderMountBase(t: Type)
    ensures IsPrefix(MOUNT_BASE_DIR + "/", DisksDir(t))
    ensures t != ServiceAccount ==> IsPrefix(MOUNT_BASE_DIR + "/", SourceDir(t))
    ensures !IsPrefix(MOUNT_BASE_DIR + "/", SourceDir(ServiceAccount))
  {
    var base := MOUNT_BASE_DIR + "/";
    assert SourceDir(ServiceAccount)[9] != base[9];
    match t
    case ConfigMap =>
      assert DisksDir(t)[..|base|] == base;
      assert SourceDir(t)[..|base|] == base;
    case Secret =>
      assert DisksDir(t)[..|base|] == base;
      assert SourceDir(t)[..|base|] == base;
    case DownwardAPI =>
      assert DisksDir(t)[..|base|] == base;
      assert SourceDir(t)[..|base|] == base;
    case ServiceAccount =>
      assert DisksDir(t)[..|base|] == base;
  }

  /** Different source types never share a source directory, an image directory or a name,
      and no source directory is also an image directory. */
  lemma RegistryIsInjective(a: Type, b: Type)
    ensures a != b ==> SourceDir(a) != SourceDir(b)
    ensures a != b ==> DisksDir(a) != DisksDir(b)
    ensures a != b ==> TypeName(a) != TypeName(b)
    ensures SourceDir(a) != DisksDir(b)
  {
    // Only the service account's two directories have the same length.
    assert SourceDir(ServiceAccount)[9] != DisksDir(ServiceAccount)[9];
  }

  /** The service account's image name is a plain file name ending in `.iso`:
      no separator, so it names a file inside the image directory, and never
      one of the registered directories. */
  lemma DiskNameIsPlainFile(t: Type)
    ensures SERVICE_ACCOUNT_DISK_NAME != "" && '/' !in SERVICE_ACCOUNT_DISK_NAME
    ensures SERVICE_ACCOUNT_DISK_NAME[|SERVICE_ACCOUNT_DISK_NAME| - 4..] == ".iso"
    ensures SERVICE_ACCOUNT_DISK_NAME != SourceDir(t) && SERVICE_ACCOUNT_DISK_NAME != DisksDir(t)
  {
  }
}
