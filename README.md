# Design-pattern demos, modelled in Dafny

This project models the small Java demonstrations of classic design patterns:

- the **State** vending machine, with three states and three events;
- the **Bridge** between remote controls and the TV and radio they drive;
- the **Factory** that creates users from a case-insensitive name;
- the **Builder** that assembles a pizza;
- the lazily created **Singleton** configuration;
- the load-once **Proxy** image;
- the **Prototype** shapes, with value clones, a shallow clone and a deep clone.

Where the Java code mutates objects, the model is a Dafny class with the same fields. Its methods carry `modifies` clauses and state the whole new state. Where the logic is a pure decision, it is a function, and lemmas state its properties:

- the vending machine's transitions are the pure `Handle`, and `VendingMachine` is proved to follow it;
- a device's reaction to every remote command is the pure `Exec`, and `Remote` is proved to follow it;
- the shapes' `getInfo` texts are functions over the fields.

Printed console messages are returned as strings instead.

Files:

- `results.dfy`: `Option` and `Result` values. `Option` stands for a Java reference that may be null. `Result` stands for a call that may throw.
- `text.dfy`: Java's decimal rendering of `int`, with its reading partner.
- `vending.dfy`: the State pattern.
- `bridge.dfy`: the Bridge pattern.
- `factory.dfy`: the Factory pattern.
- `builder.dfy`: the Builder pattern.
- `singleton.dfy`: the Singleton pattern.
- `proxy.dfy`: the Proxy pattern.
- `prototype.dfy`: the Prototype pattern.

## Model

| member | source | states |
|---|---|---|
| `VendingMachineState.NoMoneyHandle` | src/Behavioral/State/NoMoneyState.java:4-19 | only `insertMoney` moves the machine (to HasMoney); the other two events stay in NoMoney with "Please insert money first"; the inventory flag is never changed |
| `VendingMachineState.HasMoneyHandle` | src/Behavioral/State/HasMoneyState.java:4-24 | Dispensing is reached exactly on `selectProduct` with stock ("Product selected"), NoMoney exactly on `selectProduct` without stock ("Sorry, out of products"; the money is not kept); `insertMoney` answers "Already have money inserted" and `dispense` "Please select a product first"; the inventory flag is never changed |
| `VendingMachineState.DispensingHandle` | src/Behavioral/State/DispensingState.java:4-19 | `dispense` returns to NoMoney with the machine emptied; the other events change nothing and ask the customer to wait |
| `VendingMachineState.StateChangesOnlyOnExpectedEvent` | src/Behavioral/State/VendingMachine.java:12-22 | the state changes if and only if the event is the one the current state waits for; every other event leaves state and inventory alone |
| `VendingMachineState.InventoryOnlyDecreases` | src/Behavioral/State/DispensingState.java:15-19 | `hasProduct` never goes from false to true, and it changes exactly on `dispense` in Dispensing while stocked |
| `VendingMachineState.Handle` | src/Behavioral/State/VendingMachine.java:12-22 | the dispatch to the current state's handler never restocks the machine, and keeps the invariant that it only dispenses while it holds a product |
| `VendingMachineState.Run` | src/Behavioral/State/VendingMachine.java:12-22 | a run of events yields one message per event |
| `VendingMachineState.RunKeepsInvariants` | src/Behavioral/State/VendingMachine.java:4-5 | over any sequence of events the consistency invariant holds and an empty machine never refills |
| `VendingMachineState.RunConservesStock` | src/Behavioral/State/DispensingState.java:15-19 | over any run, products reported dispensed plus product still held equal the product held at the start |
| `VendingMachineState.VendingMachine.constructor` | src/Behavioral/State/VendingMachine.java:7-10 | a new machine waits for money and holds a product |
| `VendingMachineState.VendingMachine.SetState` | src/Behavioral/State/VendingMachine.java:24-26 | replaces the state and leaves the inventory flag alone |
| `VendingMachineState.VendingMachine.SetHasProduct` | src/Behavioral/State/VendingMachine.java:32-34 | replaces the inventory flag and leaves the state alone |
| `VendingMachineState.VendingMachine.NoMoneyHandler` | src/Behavioral/State/NoMoneyState.java:4-19 | answers with the NoMoney message; `insertMoney` moves the machine to HasMoney, the other events leave the state as it was; the inventory flag is kept |
| `VendingMachineState.VendingMachine.HasMoneyHandler` | src/Behavioral/State/HasMoneyState.java:4-24 | answers with the HasMoney message; only `selectProduct` moves the machine, to the state the stock branch decides; the other events leave the state as it was; the flag is kept |
| `VendingMachineState.VendingMachine.DispensingHandler` | src/Behavioral/State/DispensingState.java:4-19 | answers with the Dispensing message; `dispense` clears the flag and returns to NoMoney, the other events leave state and flag as they were |
| `VendingMachineState.VendingMachine.Fire` | src/Behavioral/State/VendingMachine.java:12-22 | an event is handed to the current state's handler and does nothing else; it keeps the invariant and never restocks |
| `VendingMachineState.VendingMachine.InsertMoney` | src/Behavioral/State/VendingMachine.java:12-14 | `insertMoney` is the transition for that event from the current state |
| `VendingMachineState.VendingMachine.SelectProduct` | src/Behavioral/State/VendingMachine.java:16-18 | `selectProduct` is the transition for that event from the current state |
| `VendingMachineState.VendingMachine.Dispense` | src/Behavioral/State/VendingMachine.java:20-22 | `dispense` is the transition for that event from the current state |
| `VendingMachineState.VendingScenario` | src/Behavioral/State/StateMain.java:5-20 | the demo script yields the six messages in order, ending with "Sorry, out of products", in NoMoney with no stock |
| `VendingMachineState.DoubleInsertScenario` | src/Behavioral/State/HasMoneyState.java:5-7 | inserting money twice into a new machine answers "Money accepted!" then "Already have money inserted", and the machine stays in HasMoney with its product |
| `Text.DigitChar` | src/Structural/Bridge/AdvancedRemote.java:13 | a digit value below ten is written as a decimal digit character |
| `Text.DigitValue` | src/Structural/Bridge/AdvancedRemote.java:13 | a digit character has a value below ten, and writing that value gives the same character |
| `Text.NatToString` | src/Structural/Bridge/AdvancedRemote.java:13 | a natural number is written as at least one decimal digit, with a leading zero only for zero itself |
| `Text.DecimalRoundTrip` | src/Structural/Bridge/AdvancedRemote.java:13 | reading back the digits of a natural number gives the number |
| `Text.IntToString` | src/Structural/Bridge/AdvancedRemote.java:13 | an `int` is written with a minus sign exactly when it is negative, followed by digits only |
| `Text.IntRoundTrip` | src/Structural/Bridge/AdvancedRemote.java:13 | reading back an integer's text gives the integer |
| `Text.IntToStringInjective` | src/Creational/Prototype/Circle.java:19 | distinct integers have distinct texts |
| `Text.IntTextThenNonDigit` | src/Creational/Prototype/Rectangle.java:21 | an integer's text followed by a non-digit splits back uniquely into the integer and the rest |
| `Text.DigitAfterSign` | src/Creational/Prototype/Rectangle.java:21 | every character of an integer's text after the first is a digit |
| `Text.CancelPrefix` | src/Creational/Prototype/Circle.java:19 | equal texts with the same prefix have equal remainders |
| `Text.LabelledIntSplits` | src/Creational/Prototype/Rectangle.java:21 | a label, an integer's text and a rest starting with a non-digit split back uniquely |
| `Bridge.InitialStateInRange` | src/Structural/Bridge/Radio.java:4-6 | both devices start switched off and within their ranges |
| `Bridge.WithChannel` | src/Structural/Bridge/Radio.java:29-34 | a channel is taken if and only if the device accepts it; a rejected one changes nothing |
| `Bridge.WithVolume` | src/Structural/Bridge/TV.java:39-43 | a volume is taken if and only if it is in [0,100]; a rejected one changes nothing |
| `Bridge.Exec` | src/Structural/Bridge/RemoteControl.java:10-24 | the effect of each remote operation on a device: only `turnOn`/`turnOff` touch the power flag, and a volume or channel that changes has passed the device's own check |
| `Bridge.ExecKeepsInRange` | src/Structural/Bridge/RemoteControl.java:10-24 | no remote command moves the volume out of [0,100] or a radio's channel out of [87,108] |
| `Bridge.RunKeepsInRange` | src/Structural/Bridge/Radio.java:4-46 | over any sequence of remote commands the range invariant holds |
| `Bridge.VolumeStepsAreAllOrNothing` | src/Structural/Bridge/BasicRemote.java:16-22 | a ±10 volume step is taken whole or not at all, never clamped: at 95, `volumeUp` stays at 95 |
| `Bridge.ChannelStepsAtTheEdges` | src/Structural/Bridge/BasicRemote.java:8-14 | a radio at 108 stays there on `channelUp` and at 87 on `channelDown`; a TV steps down without a floor |
| `Bridge.MuteSilences` | src/Structural/Bridge/AdvancedRemote.java:8-10 | `mute` always ends at volume 0 and changes neither the channel nor the power flag |
| `Bridge.SaveChannelIsSetChannel` | src/Structural/Bridge/AdvancedRemote.java:12-15 | `saveChannel(n)` acts on the device as `setChannel(n)` does; a radio ignores 120 |
| `Bridge.CommandsIgnorePower` | src/Structural/Bridge/RemoteControl.java:18-24 | no command checks whether the device is on: commands act on volume and channel alike when on and when off |
| `Bridge.FavoriteMessage` | src/Structural/Bridge/AdvancedRemote.java:13 | the `saveChannel` report opens with "Saved channel " and ends with " as favorite" |
| `Bridge.FavoriteMessageIdentifies` | src/Structural/Bridge/AdvancedRemote.java:13 | two reports are equal if and only if they name the same channel |
| `Bridge.Device.Tv` | src/Structural/Bridge/TV.java:4-6 | a new TV is off at volume 30 on channel 1 |
| `Bridge.Device.Radio` | src/Structural/Bridge/Radio.java:4-6 | a new radio is off at volume 20 on channel 87 |
| `Bridge.Device.Enable` | src/Structural/Bridge/Radio.java:14-16 | switches the device on and changes nothing else |
| `Bridge.Device.Disable` | src/Structural/Bridge/TV.java:18-21 | switches the device off and changes nothing else |
| `Bridge.Device.SetChannel` | src/Structural/Bridge/TV.java:29-31 | a TV takes any channel, a radio only 87..108; nothing else changes |
| `Bridge.Device.SetVolume` | src/Structural/Bridge/Radio.java:42-46 | the volume is set only when in [0,100]; nothing else changes |
| `Bridge.Remote.constructor` | src/Structural/Bridge/RemoteControl.java:4-8 | a remote is bound to the device it was built with |
| `Bridge.Remote.TurnOn` | src/Structural/Bridge/RemoteControl.java:10-12 | enables the device |
| `Bridge.Remote.TurnOff` | src/Structural/Bridge/RemoteControl.java:14-16 | disables the device |
| `Bridge.Remote.SetChannel` | src/Structural/Bridge/RemoteControl.java:18-20 | has exactly the device's own channel effect |
| `Bridge.Remote.SetVolume` | src/Structural/Bridge/RemoteControl.java:22-24 | has exactly the device's own volume effect |
| `Bridge.Remote.ChannelUp` | src/Structural/Bridge/BasicRemote.java:8-10 | sets the channel one up, through the device's check |
| `Bridge.Remote.ChannelDown` | src/Structural/Bridge/BasicRemote.java:12-14 | sets the channel one down, through the device's check |
| `Bridge.Remote.VolumeUp` | src/Structural/Bridge/BasicRemote.java:16-18 | sets the volume ten up, through the device's check |
| `Bridge.Remote.VolumeDown` | src/Structural/Bridge/BasicRemote.java:20-22 | sets the volume ten down, through the device's check |
| `Bridge.Remote.Mute` | src/Structural/Bridge/AdvancedRemote.java:8-10 | leaves the volume at 0 on either device |
| `Bridge.Remote.SaveChannel` | src/Structural/Bridge/AdvancedRemote.java:12-15 | reports "Saved channel n as favorite" whatever the device does with n, and sets the channel as `setChannel` would |
| `Bridge.TvScenario` | src/Structural/Bridge/BridgeMain.java:6-20 | two remotes sharing a TV: channel 5 and volume 40, then volume 0 after `mute`, and the report "Saved channel 7 as favorite" |
| `Bridge.RadioScenario` | src/Structural/Bridge/BridgeMain.java:23-37 | two remotes sharing a radio: channel 98 and volume 30, then volume 0 after `mute`, and the report "Saved channel 101 as favorite" |
| `Factory.LowerChar` | src/Creational/Factory/UserFactory.java:5 | upper-case ASCII letters become lower-case; every other character is kept |
| `Factory.ToLower` | src/Creational/Factory/UserFactory.java:5 | lower-casing keeps the length and lower-cases each character in place |
| `Factory.CreateUser` | src/Creational/Factory/UserFactory.java:4-11 | succeeds if and only if the lower-cased input is a key, with the user of that key; otherwise fails with "Invalid user type: " and the input as given |
| `Factory.ToLowerOfSameIgnoringCase` | src/Creational/Factory/UserFactory.java:5 | inputs equal up to case lower-case to the same string |
| `Factory.ToLowerIdempotent` | src/Creational/Factory/UserFactory.java:5 | lower-casing twice is lower-casing once |
| `Factory.AnyCasingOfKeySucceeds` | src/Creational/Factory/UserFactory.java:5-8 | any casing of "admin", "moderator" or "regular" yields that kind of user |
| `Factory.CaseInsensitive` | src/Creational/Factory/UserFactory.java:5 | inputs that differ only in case succeed or fail together and name the same user |
| `Factory.KeyRoundTrip` | src/Creational/Factory/UserFactory.java:6-8 | creating from a user's key gives back that user |
| `Factory.RoleNameAdminAccepted` | src/Creational/Factory/Admin.java:7 | the role name "Admin" is accepted, since case is ignored |
| `Factory.RoleNameModeratorAccepted` | src/Creational/Factory/Moderator.java:7 | the role name "Moderator" is accepted |
| `Factory.RoleNameRegularUserRejected` | src/Creational/Factory/UserFactory.java:8-9 | the role name "Regular User" is not a key and fails with "Invalid user type: Regular User" |
| `Factory.LongerThanEveryKeyRejected` | src/Creational/Factory/UserFactory.java:9 | an input longer than every key fails, quoting the input |
| `Factory.User.Role` | src/Creational/Factory/Admin.java:7-18 | the role name of Admin and Moderator is the factory key up to case; that of the regular user is not (RegularUser.java:7) |
| `Factory.User.Permissions` | src/Creational/Factory/Moderator.java:8-22 | the permission lists hold 5, 4 and 3 entries, none repeated |
| `Factory.RolesDistinct` | src/Creational/Factory/RegularUser.java:7 | two kinds of user have the same role name if and only if they are the same kind |
| `Builder.ListToString` | src/Creational/Builder/Pizza.java:37 | a list's text is bracketed |
| `Builder.ListToStringAppend` | src/Creational/Builder/Pizza.java:24-26 | appending a topping extends the list's text in place: the new element follows a separator before the closing bracket |
| `Builder.Pizza.constructor` | src/Creational/Builder/Pizza.java:12-14 | a new pizza has no toppings and no size, crust or sauce |
| `Builder.Pizza.SetSize` | src/Creational/Builder/Pizza.java:16-18 | overwrites only the size, with null as well |
| `Builder.Pizza.SetCrustType` | src/Creational/Builder/Pizza.java:20-22 | overwrites only the crust, with null as well |
| `Builder.Pizza.AddTopping` | src/Creational/Builder/Pizza.java:24-26 | appends the topping at the end, keeping earlier ones and duplicates, and changes nothing else |
| `Builder.Pizza.SetSauce` | src/Creational/Builder/Pizza.java:28-30 | overwrites only the sauce, with null as well |
| `Builder.Pizza.ToString` | src/Creational/Builder/Pizza.java:33-40 | the text opens with the size in quotes and closes with the sauce in quotes and a brace; an unset field shows as null |
| `Builder.PizzaBuilder.constructor` | src/Creational/Builder/PizzaBuilder.java:6-8 | a new builder holds a fresh, empty pizza |
| `Builder.PizzaBuilder.SetSize` | src/Creational/Builder/PizzaBuilder.java:10-13 | returns the same builder after setting only the held pizza's size |
| `Builder.PizzaBuilder.SetCrustType` | src/Creational/Builder/PizzaBuilder.java:15-18 | returns the same builder after setting only the crust |
| `Builder.PizzaBuilder.AddTopping` | src/Creational/Builder/PizzaBuilder.java:20-23 | returns the same builder after appending a topping to the held pizza |
| `Builder.PizzaBuilder.SetSauce` | src/Creational/Builder/PizzaBuilder.java:25-28 | returns the same builder after setting only the sauce |
| `Builder.PizzaBuilder.Build` | src/Creational/Builder/PizzaBuilder.java:30-32 | returns the held pizza itself, not a copy |
| `Builder.CustomPizzaScenario` | src/Creational/Builder/BuilderMain.java:6-13 | the built pizza carries every field set, with toppings in call order |
| `Builder.AddAfterBuildScenario` | src/Creational/Builder/PizzaBuilder.java:20-32 | two builds return the same pizza, and a topping added after building shows up on it |
| `ConfigSingleton.Singleton.constructor` | src/Creational/Singleton/Singleton.java:19-23 | the configuration starts with theme "default" and dark mode off |
| `ConfigSingleton.Singleton.SetTheme` | src/Creational/Singleton/Singleton.java:40-42 | changes only the theme |
| `ConfigSingleton.Singleton.SetDarkMode` | src/Creational/Singleton/Singleton.java:48-50 | changes only the dark-mode flag |
| `ConfigSingleton.SingletonHolder.constructor` | src/Creational/Singleton/Singleton.java:10 | no instance exists before the first request |
| `ConfigSingleton.SingletonHolder.GetInstance` | src/Creational/Singleton/Singleton.java:28-33 | never null; the first call creates a default instance, every later call returns the same one and allocates nothing |
| `ConfigSingleton.SingletonScenario` | src/Creational/Singleton/SingletonMain.java:10-32 | both requests give the same instance, and a change through either is seen through the other |
| `ImageProxy.RealImage.constructor` | src/Structural/Proxy/ProxyImage.java:15 | a real image is created for the given file name and not yet displayed |
| `ImageProxy.RealImage.Display` | src/Structural/Proxy/ProxyImage.java:19 | each display is counted once |
| `ImageProxy.ProxyImage.constructor` | src/Structural/Proxy/ProxyImage.java:7-9 | a new proxy keeps its file name and has no real image |
| `ImageProxy.ProxyImage.Display` | src/Structural/Proxy/ProxyImage.java:11-20 | the first call creates the real image and reports a first load; later calls reuse it and report a cache hit; the real image is displayed each time and never discarded |
| `ImageProxy.DisplayRepeatedly` | src/Structural/Proxy/ProxyImage.java:13-19 | n displays of a new proxy load the image once and display it n times |
| `ImageProxy.ProxyScenario` | src/Structural/Proxy/ProxyMain.java:6-14 | the first display loads, the second is served from the cache |
| `Prototype.ColorTail` | src/Creational/Prototype/Circle.java:19 | the colour part of a shape's text starts with a comma |
| `Prototype.HeightTail` | src/Creational/Prototype/Rectangle.java:21 | what follows a rectangle's width in its text starts with a comma |
| `Prototype.ColorTailIdentifies` | src/Creational/Prototype/Circle.java:19 | the colour part of a shape's text determines the colour |
| `Prototype.HeightTailIdentifies` | src/Creational/Prototype/Rectangle.java:21 | what follows the width determines height and colour |
| `Prototype.CircleText` | src/Creational/Prototype/Circle.java:18-20 | the circle text opens with "Circle [radius=" and ends with the colour part; with CircleTextIdentifies it determines radius and colour |
| `Prototype.RectangleText` | src/Creational/Prototype/Rectangle.java:20-22 | the rectangle text opens with "Rectangle [width=" and ends with the height and colour part; with RectangleTextIdentifies it determines all three fields |
| `Prototype.CircleNeverReadsAsRectangle` | src/Creational/Prototype/Circle.java:19 | no circle text equals a rectangle text |
| `Prototype.CircleTextIdentifies` | src/Creational/Prototype/Circle.java:18-20 | two circles have the same `getInfo` text if and only if they have the same radius and colour |
| `Prototype.RectangleTextIdentifies` | src/Creational/Prototype/Rectangle.java:20-22 | two rectangles have the same `getInfo` text if and only if width, height and colour agree |
| `Prototype.Circle.constructor` | src/Creational/Prototype/Circle.java:7-10 | keeps the radius and colour given |
| `Prototype.Circle.Clone` | src/Creational/Prototype/Circle.java:13-15 | a fresh circle with the same radius and colour, whose text equals the original's |
| `Prototype.Rectangle.constructor` | src/Creational/Prototype/Rectangle.java:8-12 | keeps the width, height and colour given |
| `Prototype.Rectangle.Clone` | src/Creational/Prototype/Rectangle.java:15-17 | a fresh rectangle with the same fields, whose text equals the original's |
| `Prototype.Point.constructor` | src/Creational/Prototype/ComplexShapeDemo.java:40 | keeps the coordinates given |
| `Prototype.Point.SetX` | src/Creational/Prototype/ComplexShapeDemo.java:19 | changes only the x coordinate |
| `Prototype.ShallowShape.constructor` | src/Creational/Prototype/ComplexShapeDemo.java:7-10 | keeps the very point given, not a copy |
| `Prototype.ShallowShape.Clone` | src/Creational/Prototype/ComplexShapeDemo.java:13-16 | a fresh shape sharing the original's centre point, with the same colour |
| `Prototype.ShallowShape.MoveX` | src/Creational/Prototype/ComplexShapeDemo.java:18-20 | moves the centre's x by dx and leaves its y alone |
| `Prototype.ShallowShape.Info` | src/Creational/Prototype/ComplexShapeDemo.java:22-25 | the text opens with "ShallowShape [center=" and ends with the colour part |
| `Prototype.DeepShape.constructor` | src/Creational/Prototype/ComplexShapeDemo.java:32-35 | keeps the very point given |
| `Prototype.DeepShape.Clone` | src/Creational/Prototype/ComplexShapeDemo.java:38-41 | a fresh shape with a fresh point at the same coordinates, with the same colour |
| `Prototype.DeepShape.MoveX` | src/Creational/Prototype/ComplexShapeDemo.java:43-45 | moves this shape's own centre's x by dx and leaves its y alone |
| `Prototype.DeepShape.Info` | src/Creational/Prototype/ComplexShapeDemo.java:47-50 | the text opens with "DeepShape [center=" and ends with the colour part |
| `Prototype.CloneScenario` | src/Creational/Prototype/PrototypeMain.java:6-20 | each value clone reads exactly like its original |
| `Prototype.ShallowScenario` | src/Creational/Prototype/ComplexShapeDemo.java:57-70 | after moving the original by 5, the shallow clone's centre has moved too |
| `Prototype.DeepScenario` | src/Creational/Prototype/ComplexShapeDemo.java:74-87 | after moving the original by 5, the deep clone's centre is still at the origin |

## Left out

- The Adapter (`src/Structural/Adapter`) is not modelled. It is floating-point conversion with `printf` formatting, with nothing exact to prove.
- Console output is not modelled. Every printed message is returned as a string instead. The demo entry points survive only as the scenario methods.
- Java interfaces and inheritance are not modelled as such:
  - The `State` interface becomes the `MachineState` datatype plus a dispatch function.
  - The `Device` interface with its `TV` and `Radio` classes becomes one `Device` class with a constant kind. Its setters branch on that kind.
  - `RemoteControl`, `BasicRemote` and `AdvancedRemote` become one `Remote` class holding all their operations. The subclasses only add operations and override nothing, so no behaviour is lost. The merge does add capability: every `Remote` can `mute` and `saveChannel`, where a Java `BasicRemote` cannot, and the abstract `RemoteControl` has no instances of its own.
  - The `User` interface becomes the `User` datatype.
- Plain getters are not separate members: `getChannel`, `getVolume`, `isEnabled`, `getTheme`, `isDarkMode` and `hasProduct` are read as fields. `getRole` and `getPermissions` are the datatype's `Role` and `Permissions`.
- `Singleton.getInstance` uses a static field. That field is modelled as a field of `SingletonHolder`, which stands for the class, so the model says nothing about several class loaders or threads.
- `RealImage`, `Image`, `Point` and `Shape` are not part of this model.
  - `RealImage` stands in only as a display counter for its file name. Loading from disk is not modelled.
  - `Point` appears only as a class with integer `x` and `y`.
- Point's `toString` is not modelled. `ShallowShape.Info` and `DeepShape.Info` take the rendering of the centre as a parameter.
- Factory.ToLower: approximates Java's locale-sensitive `String.toLowerCase` by ASCII lower-casing. Other letters are kept as they are.
- Bridge.Remote.ChannelUp: uses unbounded integers, so the 32-bit wrap-around of `getChannel() + 1` at the `int` limit is not modelled. The same holds for `ChannelDown`, `VolumeUp`, `VolumeDown`, `ShallowShape.MoveX` and `DeepShape.MoveX`.
- Builder.Pizza.ToString: states only how the pizza text opens and closes, not the middle fields or the exact text of the demo's two pizzas.
- Factory.User.Permissions: states the lengths and distinctness of the permission lists. The exact lists are its body.
- Factory.CreateUser: takes a non-null string. A null input, for which Java throws NullPointerException, is not modelled.
- Builder.Pizza.AddTopping: takes a non-null topping. A null topping, which Java keeps and shows as "null" in the list, is not modelled. The size, crust and sauce setters do take null (`None`).
- ConfigSingleton.Singleton.SetTheme: takes a non-null theme. Setting the theme to null is not modelled.
- Prototype.CircleTextIdentifies: speaks of non-null colours only. A null colour and the colour "null" give the same Java text, so for Java the "if and only if" holds only for non-null colours. The same holds for `Prototype.RectangleTextIdentifies` and for the `color` of every shape class.
