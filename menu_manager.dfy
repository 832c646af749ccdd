/** The menu panel switcher: five optional panel objects, at most the chosen
  * one shown. A panel is a scene object with an active flag; a slot left
  * unassigned in the editor is `null`. Two slots may hold the same object,
  * so the contracts speak of the objects the slots hold. */
module Menus {
  datatype MenuPanel = MainMenu | ConnectionMenu | HostMenu | JoinMenu | OptionsMenu

  /** A scene object; only its active flag matters here. */
  class GameObject {
    var activeSelf: bool

    constructor(active: bool)
      ensures activeSelf == active
    {
      activeSelf := active;
    }
  }

  class MenuManager {
    var mainMenuPanel: GameObject?
    var connectionMenuPanel: GameObject?
    var hostPanel: GameObject?
    var joinPanel: GameObject?
    var optionsMenuPanel: GameObject?
    var startingPanel: MenuPanel
    var quitRequested: bool

    constructor(main: GameObject?, connection: GameObject?, host: GameObject?, join: GameObject?, options: GameObject?)
      ensures mainMenuPanel == main && connectionMenuPanel == connection && hostPanel == host
      ensures joinPanel == join && optionsMenuPanel == options
      ensures startingPanel == MainMenu && !quitRequested
    {
      mainMenuPanel := main;
      connectionMenuPanel := connection;
      hostPanel := host;
      joinPanel := join;
      optionsMenuPanel := options;
      startingPanel := MainMenu;
      quitRequested := false;
    }

    /** The object in the slot for `p`. */
    function PanelObject(p: MenuPanel): GameObject?
      reads this`mainMenuPanel, this`connectionMenuPanel, this`hostPanel, this`joinPanel, this`optionsMenuPanel
    {
      match p
      case MainMenu => mainMenuPanel
      case ConnectionMenu => connectionMenuPanel
      case HostMenu => hostPanel
      case JoinMenu => joinPanel
      case OptionsMenu => optionsMenuPanel
    }

    /** The assigned panel objects. */
    function Panels(): (objects: set<GameObject>)
      reads this`mainMenuPanel, this`connectionMenuPanel, this`hostPanel, this`joinPanel, this`optionsMenuPanel
      ensures forall p :: PanelObject(p) != null ==> PanelObject(p) in objects
    {
      (if mainMenuPanel != null then {mainMenuPanel} else {}) +
      (if connectionMenuPanel != null then {connectionMenuPanel} else {}) +
      (if hostPanel != null then {hostPanel} else {}) +
      (if joinPanel != null then {joinPanel} else {}) +
      (if optionsMenuPanel != null then {optionsMenuPanel} else {})
    }

    /** Every assigned panel is hidden. */
    ghost predicate AllHidden()
      reads this, Panels()
    {
      forall p :: PanelObject(p) != null ==> !PanelObject(p).activeSelf
    }

    /** Exactly the object in `p`'s slot is shown: every assigned panel is
      * active iff it is that object. The state depends on `p` alone, so
      * showing the same panel twice leaves the state of the first time. */
    ghost predicate ShowsOnly(p: MenuPanel)
      reads this, Panels()
    {
      forall q :: PanelObject(q) != null ==> PanelObject(q).activeSelf == (PanelObject(q) == PanelObject(p))
    }

    /** `HideAllPanels`. */
    method HideAllPanels()
      modifies Panels()`activeSelf
      ensures AllHidden()
    {
      if mainMenuPanel != null { mainMenuPanel.activeSelf := false; }
      if connectionMenuPanel != null { connectionMenuPanel.activeSelf := false; }
      if hostPanel != null { hostPanel.activeSelf := false; }
      if joinPanel != null { joinPanel.activeSelf := false; }
      if optionsMenuPanel != null { optionsMenuPanel.activeSelf := false; }
    }

    /** `ShowPanel`: hide every panel, then show `panel`'s if assigned. */
    method ShowPanel(panel: MenuPanel)
      modifies Panels()`activeSelf
      ensures ShowsOnly(panel)
      ensures PanelObject(panel) != null ==> PanelObject(panel).activeSelf
      ensures forall q :: PanelObject(q) != null && PanelObject(q) != PanelObject(panel) ==> !PanelObject(q).activeSelf
    {
      HideAllPanels();
      match panel {
        case MainMenu => if mainMenuPanel != null { mainMenuPanel.activeSelf := true; }
        case ConnectionMenu => if connectionMenuPanel != null { connectionMenuPanel.activeSelf := true; }
        case HostMenu => if hostPanel != null { hostPanel.activeSelf := true; }
        case JoinMenu => if joinPanel != null { joinPanel.activeSelf := true; }
        case OptionsMenu => if optionsMenuPanel != null { optionsMenuPanel.activeSelf := true; }
      }
    }

    /** `Awake` (after the singleton check): every panel starts hidden. */
    method Awake()
      modifies Panels()`activeSelf
      ensures AllHidden()
    {
      HideAllPanels();
    }

    /** `Start`: show the starting panel. */
    method Start()
      modifies Panels()`activeSelf
      ensures ShowsOnly(startingPanel)
    {
      ShowPanel(startingPanel);
    }

    method ShowMainMenu()
      modifies Panels()`activeSelf
      ensures ShowsOnly(MainMenu)
    {
      ShowPanel(MainMenu);
    }

    method ShowConnectionMenu()
      modifies Panels()`activeSelf
      ensures ShowsOnly(ConnectionMenu)
    {
      ShowPanel(ConnectionMenu);
    }

    method ShowHostMenu()
      modifies Panels()`activeSelf
      ensures ShowsOnly(HostMenu)
    {
      ShowPanel(HostMenu);
    }

    method ShowJoinMenu()
      modifies Panels()`activeSelf
      ensures ShowsOnly(JoinMenu)
    {
      ShowPanel(JoinMenu);
    }

    method ShowOptionsMenu()
      modifies Panels()`activeSelf
      ensures ShowsOnly(OptionsMenu)
    {
      ShowPanel(OptionsMenu);
    }

    /** The Start button goes straight to the join panel. */
    method OnStartButtonClicked()
      modifies Panels()`activeSelf
      ensures ShowsOnly(JoinMenu)
    {
      ShowJoinMenu();
    }

    method OnOptionsButtonClicked()
      modifies Panels()`activeSelf
      ensures ShowsOnly(OptionsMenu)
    {
      ShowOptionsMenu();
    }

    /** The Exit button asks the application to quit; the panels are left
      * as they are. */
    method OnExitButtonClicked()
      modifies this`quitRequested
      ensures quitRequested
    {
      quitRequested := true;
    }

    /** Every Back button returns to the main menu. */
    method OnBackButtonClicked()
      modifies Panels()`activeSelf
      ensures ShowsOnly(MainMenu)
    {
      ShowMainMenu();
    }
  }
}
