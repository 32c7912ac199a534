/**
 * The static catalogue of src/scripts.rs: the script functions, the `item!`/`menu!`
 * constructors and the tree `build_menu_tree` returns, with the concrete facts that follow.
 */
module Scripts {
  import opened OsRelease
  import opened MenuTree

  /**
   * The script functions of the `scripts_*` modules. An Item holds one of these, as the
   * source's Item holds a `fn() -> &'static str`; `Text` is what calling it returns.
   */
  datatype ScriptFn =
    // scripts_gnome
    | MinimalInstall | FullInstall
    // scripts_sway
    | CompileFromSource | InstallWofi
    // scripts_repos
    | AddCeph | AddCrb | AddEpel | AddFlathub | AddRt | AddHa
    // scripts_virt
    | InstallKvm | InstallCockpitMinimal | InstallCockpitFull
    // scripts_net
    | InstallVpnOvpn | InstallVpnL2tp | InstallVpnSswan | InstallVpnLswan | InstallVpnPptp | InstallVpnOconn

  /** The constant text each script function returns. */
  function Text(f: ScriptFn): string
  {
    match f
    case MinimalInstall => "sudo dnf install -y gdm gnome-browser-connector\nsudo systemctl set-default graphical.target"
    case FullInstall => "sudo dnf groupinstall -y 'Workstation'\nsudo systemctl set-default graphical.target"
    case CompileFromSource => "# This is a complex process and requires many dependencies.\n# This script is a placeholder for the required commands.\nsudo dnf install -y ninja-build meson gcc wayland-devel wayland-protocols-devel libinput-devel libxcb-devel libxkbcommon-devel pixman-devel"
    case InstallWofi => "sudo dnf install -y wofi"
    case AddCeph => "sudo dnf install -y ceph-common"
    case AddCrb => "sudo dnf config-manager --set-enabled codeready-builder-for-rhel-10-rhui-rpms || sudo dnf config-manager --set-enabled crb"
    case AddEpel => "sudo dnf install -y epel-release"
    case AddFlathub => "sudo flatpak remote-add --if-not-exists flathub https://flathub.org/repo/flathub.flatpakrepo"
    case AddRt => "sudo dnf config-manager --set-enabled rt"
    case AddHa => "sudo dnf config-manager --set-enabled ha"
    case InstallKvm => "sudo dnf install -y @virtualization\nsudo systemctl enable --now libvirtd"
    case InstallCockpitMinimal => "sudo dnf install -y cockpit\nsudo systemctl enable --now cockpit.socket\nsudo firewall-cmd --add-service=cockpit --permanent\nsudo firewall-cmd --reload"
    case InstallCockpitFull => "sudo dnf install -y cockpit cockpit-machines\nsudo systemctl enable --now cockpit.socket\nsudo firewall-cmd --add-service=cockpit --permanent\nsudo firewall-cmd --reload"
    case InstallVpnOvpn => "sudo dnf install -y NetworkManager-openvpn NetworkManager-openvpn-gnome"
    case InstallVpnL2tp => "sudo dnf install -y NetworkManager-l2tp NetworkManager-l2tp-gnome"
    case InstallVpnSswan => "sudo dnf install -y strongswan strongswan-charon-nm"
    case InstallVpnLswan => "sudo dnf install -y NetworkManager-libreswan NetworkManager-libreswan-gnome"
    case InstallVpnPptp => "sudo dnf install -y NetworkManager-pptp NetworkManager-pptp-gnome"
    case InstallVpnOconn => "sudo dnf install -y NetworkManager-openconnect NetworkManager-openconnect-gnome"
  }

  /** A node of the catalogue. */
  type Node = MenuNode<ScriptFn>

  // --- the two macros ---

  /** `item!`: a leaf that starts unselected. */
  function MkItem(name: string, scriptFn: ScriptFn): Node
  {
    Item(name, scriptFn, false)
  }

  /** `menu!`: a sub-menu with the given children, in order. */
  function MkMenu(name: string, children: seq<Node>): Node
  {
    Menu(name, children)
  }

  /** The label of the CRB item: the only part of the catalogue that depends on the OS. */
  function CrbLabel(os: OsDistribution): string
  {
    if os == Rhel then "CodeReady Builder" else "CRB"
  }

  /**
   * `build_menu_tree(os)`: the nested `menu!`/`item!` expression of the source, written here
   * one top-level sub-menu per function so that each can be reasoned about on its own.
   */
  function BuildMenuTree(os: OsDistribution): Node
  {
    MkMenu("Main Menu", [
      GraphicalEnvironments(),
      Repositories(CrbLabel(os)),
      Virtualization(),
      Networking(),
      Hardening()
    ])
  }

  function GraphicalEnvironments(): Node
  {
    MkMenu("Graphical Environments", [GnomeDe(), SwayWm()])
  }

  function GnomeDe(): Node
  {
    MkMenu("Gnome DE", [
      MkMenu("Environment Installation", [
        MkItem("Minimal Installation", MinimalInstall),
        MkItem("Full Installation", FullInstall)
      ]),
      MkMenu("Customization", [
        MkMenu("Extensions", [
          MkMenu("Tiling WM", []),
          MkMenu("Top Bar", []),
          MkMenu("Desktop Functions", []),
          MkMenu("Search", [])
        ])
      ])
    ])
  }

  function SwayWm(): Node
  {
    MkMenu("Sway WM", [
      MkMenu("Environment Installation", [
        MkItem("Compile from Source", CompileFromSource)
      ]),
      MkMenu("Customization", [
        MkItem("Wofi", InstallWofi)
      ])
    ])
  }

  function Repositories(crbLabel: string): Node
  {
    MkMenu("Repositories", [AddRepositories(crbLabel)])
  }

  function AddRepositories(crbLabel: string): Node
  {
    MkMenu("Add Repositories", [
      MkItem("CEPH", AddCeph),
      MkItem(crbLabel, AddCrb),
      MkItem("EPEL", AddEpel),
      MkItem("Flathub", AddFlathub),
      MkItem("Real-Time (RT)", AddRt),
      MkItem("High Availability (HA)", AddHa)
    ])
  }

  function Virtualization(): Node
  {
    MkMenu("Virtualization", [
      MkItem("KVM (Core & Tools)", InstallKvm),
      MkMenu("Cockpit", [
        MkItem("Minimal Install", InstallCockpitMinimal),
        MkItem("Full Install (with Machines)", InstallCockpitFull)
      ])
    ])
  }

  function Networking(): Node
  {
    MkMenu("Networking", [
      MkMenu("NetworkManager", [
        MkItem("OpenVPN", InstallVpnOvpn),
        MkItem("OpenConnect", InstallVpnOconn),
        MkItem("L2TP", InstallVpnL2tp),
        MkItem("LibreSwan", InstallVpnLswan),
        MkItem("StrongSwan", InstallVpnSswan),
        MkItem("PPTP", InstallVpnPptp)
      ]),
      MkMenu("KVM (libvirt networks)", [])
    ])
  }

  function Hardening(): Node
  {
    MkMenu("Hardening", [])
  }
}
