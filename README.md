# StripeDemo product stack: a Dafny model

StripeDemo is an interactive diagram. A row of product icons (Payments,
Terminal, Radar, Authorization Boost, Connect, Global Payouts, Billing) sits
above a central card. Clicking an icon toggles the product. Every active
product with an icon is joined to the card's top edge by an orthogonal
connector with rounded corners. Three simulation layers then draw more
connectors:

- the phone and terminal devices left of the card, inside a Radar frame;
- the Connect fan-out right of the card;
- the Global Payouts bus below it.

Presets replace the active products with a fixed stack.

This project models that core on exact `real` coordinates. A connector is a
list of SVG path commands: `M` moveto, `L` lineto, and `Q` quadratic curve
with its control point. The modules are:

- `Geometry` (`geometry.dfy`): points, path commands, the `Orthogonal`
  predicate (one moveto, then only horizontal or vertical lines and
  quarter-turn corners), and reflection in a horizontal line.
- `Products` (`products.dfy`, for `src/config/products.ts`): the product ids,
  the icon row, the preset table, the stage dimensions and the icon
  positions.
- `PathGeneration` (`path_generation.dfy`, for `src/utils/pathGeneration.ts`):
  the orthogonal router.
- `App` (`app.dfy`, for `src/App.tsx`):
  - the toggle rule with its payments dependencies, as the specification
    function `Toggled`;
  - the state updater `ToggleUpdate`, proved against `Toggled`;
  - the component state as class `AppState`, whose methods toggle a product
    and apply a preset;
  - the connector drawn for each active product.
- `DeviceSimulation` (`device_simulation.dfy`, for
  `src/components/DeviceSimulationLayer.tsx`): the device connector and the
  stacked or single device layout with its frame.
- `ConnectSimulation` (`connect_simulation.dfy`, for
  `src/components/ConnectSimulationLayer.tsx`): the connector to each
  connected account.
- `GlobalPayoutsSimulation` (`global_payouts_simulation.dfy`, for
  `src/components/GlobalPayoutsSimulationLayer.tsx`): the bus connector to
  each recipient.

Some of the code's behaviour is easy to misread:

- The router in `pathGeneration.ts` uses the corner radius as given. It
  never clamps the radius to half the horizontal run, so ends less than two
  radii apart make the horizontal run go backwards (`NoClampOnShortRun`).
  Only the device and Connect layers clamp their radius.
- Turning Payments off is refused only while Connect, Global Payouts,
  Billing or Tax is active (`src/App.tsx:38`). Terminal and Radar also bring
  Payments along when they are activated, but they do not hold it on
  (`TerminalAndRadarUnguarded`).
- A second click does not always undo the first.
  - When the first click also added Payments, the second click removes only
    the product and leaves Payments behind (`DoubleToggleLeavesPayments`).
  - When the first click removed an active product, the second click
    re-activates it at the end of the list. So the list comes back only when
    the product was already last (`DoubleToggleMovesToEnd`,
    `DoubleToggleRestoresOnlyLast`, `DoubleToggleReorders`).
- The device layer clamps its corner radius against the first leg only. A
  device centred between 368 and 400 gets a last leg that runs back
  leftwards into the card (`DevicePathLastLegForwardIff`); the devices as
  laid out are centred at 200 and are not affected.
- Tax has a dependency rule but no entry in the icon row. It therefore gets
  no connector, and a preset would drop it.

## Model

| member | source | states |
|---|---|---|
| Products.FindIndex | src/App.tsx:205 | the result is the first position of the id, or -1 exactly when the id is absent |
| Products.FindPreset | src/App.tsx:89 | a found preset is in the table and has the requested id; nothing is found exactly when no entry has that id |
| Products.IconStep | src/config/products.ts:146-148 | the step times (count − 1) spans the 636-unit row; with at most one icon the divisor is 1; the step is positive |
| Products.IconX | src/config/products.ts:144-151 | slot 0 sits on the row start (382), and in a row of several icons the last slot sits on the row end (1018) |
| Products.IconPosition | src/config/products.ts:138-154 | the icon centre is at (382 + 106·index, 60): the seven icons are 106 units apart on the icon line |
| Products.IconXIncreasing | src/config/products.ts:148-151 | icons are placed strictly left to right |
| Products.ProductRowStep | src/config/products.ts:32-96 | with the seven products the step is exactly 106 |
| Products.ProductIdsDistinct | src/config/products.ts:32-96 | the icon row names each product once, and each product's index is its slot |
| Products.PresetTable | src/config/products.ts:101-120 | every preset type has an entry; Marketplace names Identity and Creator names Climate, neither of which has an icon |
| PathGeneration.Direction | src/utils/pathGeneration.ts:37-38 | the direction is ±1, and +1 exactly when the start lies left of the end |
| PathGeneration.GenerateOrthogonalPath | src/utils/pathGeneration.ts:20-75 | the path has 2 commands exactly when the ends are less than one unit apart horizontally, else 6; it starts and ends at the configured points; it is orthogonal when routed or exactly aligned |
| PathGeneration.StraightWhenAligned | src/utils/pathGeneration.ts:31-34 | nearly aligned ends give a single moveto–lineto pair |
| PathGeneration.RoutedShape | src/utils/pathGeneration.ts:44-74 | a routed path is M L Q L Q L, with the drop on the start's x, the run on the convergence line and the corners one radius above and below it |
| PathGeneration.RoutedCornersFollowDirection | src/utils/pathGeneration.ts:36-59 | the run starts one radius past the start and stops one radius before the end, in the connector's direction |
| PathGeneration.RunForwardIffWideEnough | src/utils/pathGeneration.ts:45-59 | with no clamp, the run keeps the connector's direction exactly when the ends are at least two radii apart |
| PathGeneration.NoClampOnShortRun | src/utils/pathGeneration.ts:56-59 | ends 10 units apart with the default radius make the run go back from 120 to 90 |
| PathGeneration.Defaults | src/utils/pathGeneration.ts:26-28 | an omitted radius is 20 and an omitted convergence line is 220 |
| PathGeneration.RoutedExample | src/utils/pathGeneration.ts:44-74 | the full command list of one right-going connector |
| App.Without | src/App.tsx:26 | removal keeps exactly the elements different from the id |
| App.Toggled | src/App.tsx:22-71 | after a click, the product is active exactly when it was inactive or is a refused Payments; an inactive product that needs Payments brings it; Payments stays on when another product is clicked |
| App.ToggleUpdate | src/App.tsx:23-70 | the updater's successive checks compute exactly the toggle rule `Toggled` |
| App.LockedByMember | src/App.tsx:38 | any guarding product in the list locks Payments |
| App.WithoutConcat | src/App.tsx:26 | removal distributes over concatenation, so the kept elements stay in order |
| App.WithoutCounts | src/App.tsx:26 | removal drops every copy of the id and keeps every copy of anything else |
| App.WithoutAbsent | src/App.tsx:26 | removing an absent id changes nothing |
| App.WithoutNoDuplicates | src/App.tsx:26 | removal keeps a list free of duplicates |
| App.NoDuplicatesCons | src/App.tsx:27 | prepending a new id keeps a list free of duplicates |
| App.NoDuplicatesSnoc | src/App.tsx:27 | appending a new id keeps a list free of duplicates |
| App.ActivationAppends | src/App.tsx:25-67 | activating an absent product appends it, followed by Payments exactly when the product needs Payments and Payments is missing |
| App.DeactivationRemoves | src/App.tsx:24-26 | deactivating a present product (other than locked Payments) removes all its copies, keeps all other counts and keeps the order |
| App.ToggleKeepsOthers | src/App.tsx:22-71 | a click changes the activity of no product other than the clicked one and Payments |
| App.PaymentsRemovalRefused | src/App.tsx:36-42 | turning Payments off while Connect, Global Payouts, Billing or Tax is on leaves the list unchanged |
| App.ToggleKeepsPaymentsFor | src/App.tsx:29-67 | for each guarding product, "active implies Payments active" survives every click |
| App.UnguardedRemoval | src/App.tsx:36-42 | Payments is removed from beside any product that is not a guard |
| App.TerminalAndRadarUnguarded | src/App.tsx:38 | Payments can be switched off beside Terminal or Radar |
| App.ToggleKeepsNoDuplicates | src/App.tsx:22-71 | a click never creates a duplicate |
| App.DoubleToggleRestores | src/App.tsx:22-71 | two clicks restore the list when the first added only the product and the second is not refused |
| App.DoubleToggleMovesToEnd | src/App.tsx:24-27 | clicking an active product twice moves it to the end, followed by Payments when it needs Payments and Payments was missing |
| App.DoubleToggleRestoresOnlyLast | src/App.tsx:24-27 | on a duplicate-free list, deactivating and re-activating gives the list back exactly when the product was last and no Payments was added |
| App.DoubleToggleReorders | src/App.tsx:24-27 | [Radar, Billing, Payments] becomes [Billing, Payments, Radar], and [Payments, Radar] becomes [Radar, Payments] |
| App.WithoutAppended | src/App.tsx:26 | filtering out the one copy of the id between two lists without it concatenates them |
| App.DoubleToggleLeavesPayments | src/App.tsx:29-67 | two clicks leave Payments behind when the first also added it |
| App.ConnectScenario | src/App.tsx:29-42 | from nothing, Connect brings Payments, which then cannot be turned off |
| App.KnownProducts | src/App.tsx:92-98 | the kept ids are exactly those with an icon, and never more than the input |
| App.KnownProductsSnoc | src/App.tsx:94-97 | each step of the preset loop appends the id exactly when it has an icon |
| App.PresetNetEffect | src/App.tsx:85-99 | the products left by a preset are exactly its ids that have an icon, and none when the preset is missing |
| App.PresetLookup | src/App.tsx:89 | the lookup finds the three configured stacks |
| App.PresetNetEffects | src/App.tsx:85-99 | the presets leave [Payments, Billing, Radar], [Connect, Payments, Radar] and [Payments, Billing] active, with no dependency added |
| App.KnownOfSaas | src/App.tsx:92-98 | the SaaS stack keeps all three ids |
| App.KnownOfMarketplace | src/App.tsx:92-98 | the Marketplace stack drops Identity |
| App.KnownOfMarketplacePrefix | src/App.tsx:92-98 | the first three Marketplace ids reduce to Connect and Payments |
| App.KnownOfCreator | src/App.tsx:92-98 | the Creator stack drops Climate |
| App.PresetsKeepInvariants | src/App.tsx:85-99 | every preset leaves Payments on and no product twice |
| App.AppState.constructor | src/App.tsx:19-20 | the state starts with no products and zero revenue |
| App.AppState.ToggleProduct | src/App.tsx:22-71 | the new product list is the toggle rule applied to the old one; revenue is unchanged |
| App.AppState.ApplyPreset | src/App.tsx:85-99 | afterwards the products are the preset's net effect and the revenue is 12000 |
| App.AppState.AppendKnownProducts | src/App.tsx:92-98 | the loop appends the ids with an icon in order; revenue is unchanged |
| App.ConnectionTargetX | src/App.tsx:209-212 | slot i meets the card at 550 + 50·i |
| App.InflectionY | src/App.tsx:218-227 | the run depth is 145 + 15·\|index − 3\|: outer icons drop further |
| App.IsStraight | src/App.tsx:229 | exactly slots 2 to 4 are within 60 units of their target and get a straight connector |
| App.SlotConnector | src/App.tsx:205-242 | the connector is orthogonal; it starts 35 units below the icon and ends on the card top, below the icon when straight and at the slot's target otherwise |
| App.ConnectorPath | src/App.tsx:201-242 | an active product has a connector exactly when it has an icon; it depends only on the product's slot i; it is orthogonal from (382 + 106·i, 95) to the card top at x = 382 + 106·i for slots 2 to 4 and at 550 + 50·i otherwise |
| App.InflectionSymmetricAndOutward | src/App.tsx:214-227 | run depths are symmetric about the middle slot and grow outwards |
| App.SlotConnectorShapes | src/App.tsx:229-242 | straight connectors are vertical; routed ones have six commands, run at the inflection depth and never run backwards |
| App.PaymentsConnector | src/App.tsx:205-242 | the full command list of the Payments connector |
| App.IconlessProductsHaveNoConnector | src/App.tsx:202-203 | Tax, Identity, Climate and Atlas get no connector |
| DeviceSimulation.DeviceMidX | src/components/DeviceSimulationLayer.tsx:62 | the vertical leg lies halfway between the device and the card edge |
| DeviceSimulation.SafeCornerRadius | src/components/DeviceSimulationLayer.tsx:63-64 | the radius is at most 20 and at most half the run to the middle, and equals one of the two |
| DeviceSimulation.VerticalDir | src/components/DeviceSimulationLayer.tsx:65 | the direction is ±1, and +1 exactly when the target lies below |
| DeviceSimulation.DevicePath | src/components/DeviceSimulationLayer.tsx:45-75 | the connector is orthogonal from the device centre to 8 units before the card edge; it is straight at the device's height exactly when the target is within 5 units |
| DeviceSimulation.DevicePathBend | src/components/DeviceSimulationLayer.tsx:62-74 | a bent connector turns at the middle towards the target, one clamped radius from each horizontal |
| DeviceSimulation.DevicePathNoHorizontalOvershoot | src/components/DeviceSimulationLayer.tsx:62-74 | for a device left of the card, the first leg runs rightwards and the second corner ends before the card edge |
| DeviceSimulation.DevicePathLastLegForwardIff | src/components/DeviceSimulationLayer.tsx:62-73 | for a device left of the card, the last leg runs rightwards into the card exactly when the device's centre is at most 368 |
| DeviceSimulation.DevicePathLastLegBackwards | src/components/DeviceSimulationLayer.tsx:62-73 | a device centred at 380 gets a last leg from 395 back to 392 |
| DeviceSimulation.DeviceVerticalLegForwardIff | src/components/DeviceSimulationLayer.tsx:64-71 | the vertical leg runs towards the target exactly when the heights are two radii apart |
| DeviceSimulation.FrameAround | src/components/DeviceSimulationLayer.tsx:214-217 | the frame is the content widened by the padding on each side and by the header on top |
| DeviceSimulation.LayoutFor | src/components/DeviceSimulationLayer.tsx:175-217 | which devices, badge and frame show; stacking exactly when both devices show, at 360 and 660 with targets 460 and 560; otherwise everything at 510; the content bounds and the frame |
| DeviceSimulation.PhonePath | src/components/DeviceSimulationLayer.tsx:310-318 | the phone connector is drawn exactly when Payments is active |
| DeviceSimulation.TerminalPath | src/components/DeviceSimulationLayer.tsx:323-331 | the terminal connector is drawn exactly when Terminal is active |
| DeviceSimulation.FrameEnclosesDevices | src/components/DeviceSimulationLayer.tsx:202-217 | every shown device lies inside the frame, below its header |
| DeviceSimulation.SingleDeviceStraight | src/components/DeviceSimulationLayer.tsx:191-196 | a single device gets a straight line from (200,510) to (392,510) |
| DeviceSimulation.StackedDevicesBend | src/components/DeviceSimulationLayer.tsx:191-196 | stacked, the phone's connector bends down and the terminal's up at x = 300, with separate vertical legs |
| ConnectSimulation.SafeRadius | src/components/ConnectSimulationLayer.tsx:85 | the radius is at most 20 and at most half the run to the branching column |
| ConnectSimulation.NodePath | src/components/ConnectSimulationLayer.tsx:66-96 | each connector runs from the card edge at 510 to its node; it is straight exactly when the node is level within one unit; it is orthogonal when bent or exactly level |
| ConnectSimulation.ConnectLayout | src/components/ConnectSimulationLayer.tsx:17-73 | card edge 1000, branching column 1090, nodes at 1114, and the radius keeps its full 20 |
| ConnectSimulation.NodePathBend | src/components/ConnectSimulationLayer.tsx:84-95 | a bent connector turns at the branching column towards its node |
| ConnectSimulation.NodePathsMirror | src/components/ConnectSimulationLayer.tsx:66-96 | nodes at opposite offsets get mirror-image connectors |
| ConnectSimulation.NodeTable | src/components/ConnectSimulationLayer.tsx:21-25 | only the driver gets a straight line; the store's and the creator's connectors mirror each other, and all three are orthogonal |
| GlobalPayoutsSimulation.GetNodePath | src/components/GlobalPayoutsSimulationLayer.tsx:49-86 | each connector drops from the card bottom onto the bus; it has 4 commands exactly when the recipient is level with the bus within one unit, else 8; it ends in the recipient and is orthogonal when branched or exactly level |
| GlobalPayoutsSimulation.PayoutLayout | src/components/GlobalPayoutsSimulationLayer.tsx:36-53 | card bottom 620, bus at 715, split column 1090, recipients entered at 1114 |
| GlobalPayoutsSimulation.BranchFollowsTarget | src/components/GlobalPayoutsSimulationLayer.tsx:74-85 | the branch turns at the split column towards the recipient |
| GlobalPayoutsSimulation.BranchForwardIff | src/components/GlobalPayoutsSimulationLayer.tsx:74-85 | with no clamp, the branch runs towards the recipient exactly when it lies at least 40 units off the bus |
| GlobalPayoutsSimulation.RecipientTable | src/components/GlobalPayoutsSimulationLayer.tsx:22-26 | the middle recipient gets the 4-command path; the first branches up to 615 and the last down to 815; all three are orthogonal |

## Left out

- Rendering, animation and styling are not modelled: the framer-motion transitions, gradients, arrow markers, ripples, the auth-boost badge position, and the dashed boxes of the Connect and payouts sections.
- SVG path strings are not modelled: a path is a list of commands, not its text.
- The revenue ticker (`src/App.tsx:73-83`) is not modelled. It is driven by a one-second timer; only the reset to 12000 by a preset is kept.
- `App.AppState.ApplyPreset`: the 400 ms pauses between appends are not modelled, so clicks that interleave with a running preset are not either. The method states the state once the preset has finished.
- The `console.warn` on a refused removal is I/O and is not modelled.
- `PathGeneration.GenerateOrthogonalPath`: orthogonality is claimed only when the ends are routed or exactly aligned. Ends less than one unit apart but not equal give a slightly slanted line.
- `ConnectSimulation.NodePath`: orthogonality is claimed only when the connector bends or the node is exactly level; the same caveat applies.
- `GlobalPayoutsSimulation.GetNodePath`: orthogonality is claimed only when the connector branches or the recipient is exactly level; the same caveat applies.
- The central card, the payment simulation, the money flow, the tax layer and the slot components are not part of this model.
- Icon labels, colours and descriptions are not modelled; the product table keeps only the ids, in order.
