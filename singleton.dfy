/**
 * The Singleton pattern: a configuration object created lazily on the first
 * request and shared by every later one. Dafny has no static fields, so the
 * class-wide `instance` slot is a field of a holder object that stands for the
 * class itself.
 */
module ConfigSingleton {

  /** The configuration values: a theme name and a dark-mode flag. */
  class Singleton {
    var theme: string
    var darkMode: bool

    /** The default configuration. */
    constructor ()
      ensures theme == "default" && !darkMode
    {
      theme := "default";
      darkMode := false;
    }

    method SetTheme(t: string)
      modifies this
      ensures theme == t && darkMode == old(darkMode)
    {
      theme := t;
    }

    method SetDarkMode(b: bool)
      modifies this
      ensures darkMode == b && theme == old(theme)
    {
      darkMode := b;
    }
  }

  /** The class-wide state of `Singleton`: the one instance, once it exists. */
  class SingletonHolder {
    var instance: Singleton?

    /** Before the first request there is no instance. */
    constructor ()
      ensures instance == null
    {
      instance := null;
    }

    /**
     * `getInstance()`: the first call creates the instance with the default
     * values; every later call returns that same object and allocates nothing.
     */
    method GetInstance() returns (r: Singleton)
      modifies this
      ensures instance == r
      ensures old(instance) == null ==> fresh(r) && r.theme == "default" && !r.darkMode
      ensures old(instance) != null ==> r == old(instance) && unchanged(r)
    {
      if instance == null {
        instance := new Singleton();
      }
      r := instance;
    }
  }

  /**
   * The demo script: two requests give the same object, so a setting made
   * through either reference is seen through the other.
   */
  method SingletonScenario() returns (same: bool, theme1: string, darkMode2: bool, themeAfter: string)
    ensures same
    ensures theme1 == "dark-blue" && darkMode2
    ensures themeAfter == "light-blue"
  {
    var holder := new SingletonHolder();
    var config1 := holder.GetInstance();
    config1.SetTheme("dark-blue");
    config1.SetDarkMode(true);
    var config2 := holder.GetInstance();
    same := config1 == config2;
    theme1, darkMode2 := config1.theme, config2.darkMode;
    config2.SetTheme("light-blue");
    themeAfter := config1.theme;
  }
}
