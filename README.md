# BookApi controller: a Dafny model

This project models the controller in `cmd/main.go`. The controller watches `Kluster` custom resources
(API group `pulok.dev`, version `v1alpha1`). It keeps one Deployment, `bookapi-deployment`, and one
Service, `bookapi-service`, in namespace `default`, both derived from a Kluster's spec. When either one
is deleted out-of-band, the controller creates it again.

The model has two halves:

- **Spec translator** (`translator.dfy`, with `fmt.dfy`, `api.dfy`, `gotypes.dfy`, `v1alpha1.dfy`).
  Total functions derive the Deployment and the Service from a `KlusterSpec` (replicas, image, port).
  They model only the API fields the controller sets. Port 0 resolves to 9090. The container command is
  `./BookApi start -p <port>`, with the port written in decimal as `fmt.Sprint` writes it. A reading
  function inverts that decimal text, and a round-trip lemma connects the two.
- **Reconciler** (`reconciler.dfy`). `Cluster` is a class holding the namespace's Deployments and
  Services as two maps keyed by name. `Cluster.CreateDeployment` and `Cluster.CreateService` model the
  API server's create calls. `RecreateDeployment` and `RecreateService` model the functions of the same
  name. The four informer handlers are module-level methods that take the `Cluster` they act on, and
  `Handle` dispatches one event to them. Each method is proved equal to a pure function of the old
  contents:
  - the create calls to `CreateIn`;
  - `RecreateDeployment` and `RecreateService` to `RecreateDeploymentStep` and `RecreateServiceStep`;
  - the handlers and `Handle` to `Step`, which gives the store's new contents and which creates were
    attempted. `OnKlusterDelete` agrees with `Step` under every environment. The lemmas about `Step` and `Run` (which applies events one at a time)
  state the controller's properties:
  - creates are idempotent;
  - the label gate decides what a delete event does;
  - a delete event recreates from the first listed Kluster;
  - the controller never overwrites or removes an object;
  - once both objects exist, no event changes the store (at-least-once, idempotent convergence);
  - the derived names always hold derived objects.

What the outside world decides during one handler run is an `Env` parameter. That is the result of the
Kluster list (`None` when the list call fails), and whether each create call fails for a reason other
than a name conflict. Such a failure leaves the store unchanged. The model lets it take precedence over
the conflict check, because a failed call may never reach the store.

The code does not validate the spec. `Replicas` and `Port` are Go `int32`, so negative values pass
through unchanged, and a negative port is written with a minus sign. Nothing in the code rejects a
negative replica count, a port outside 1..65535 or an empty image. The API server's validation, left
out below, is what would.

Four small helpers mirror Go constructs and need no row of their own. `Translator.Int32Ptr` models
`int32Ptr` (cmd/main.go:25); `Translator.DeriveDeployment` states what it stores. `GoTypes.MapIndex`
models the label read at cmd/main.go:161 and 174; `Reconciler.ShouldHeal` states what the test means.
`Reconciler.FirstKluster` models the list check at cmd/main.go:164 and 177; `DeploymentDeleteGating`
and `ServiceDeleteGating` state its effect. `Reconciler.Report` models the error test at
cmd/main.go:71 and 105; `KlusterAddConverges` and the gating lemmas state the outcome it gives.

## Model

| member | source | states |
|---|---|---|
| `GoTypes.Wrap32` | cmd/main.go:28 | Go's `int32(i)`: congruent to `i` modulo 2^32, and equal to `i` when `i` fits in 32 bits |
| `Translator.IntStr` | cmd/main.go:27-29 | `intstrPtr` gives the integer-tagged form, with an empty string part and value `int32(i)`, which is `i` for every 32-bit `i` |
| `Translator.ResolvePort` | cmd/main.go:34-37 | the resolved port is never 0: the default 9090 when the spec's port is 0, the spec's port otherwise (the same rule is repeated at cmd/main.go:79-82) |
| `Translator.DeriveDeployment` | cmd/main.go:32-68 | the Deployment is named `bookapi-deployment` in `default`; replicas and image are copied unchanged, including zero replicas and an empty image; it has one container, whose one port is the resolved port; its selector selects its pod template's labels |
| `Translator.DeriveService` | cmd/main.go:79-102 | the Service is named `bookapi-service` in `default`, is of type ClusterIP, and has one port whose port and integer target port are both the resolved port |
| `Translator.ContainerCommand` | cmd/main.go:59 | the command is `./BookApi`, `start`, `-p` and then the port's decimal text, and that text reads back as exactly the port |
| `Translator.PortAgreement` | cmd/main.go:59-98 | the container port, the `-p` argument (read back), the Service port and the integer target port all equal the resolved port |
| `Translator.FixedIdentity` | cmd/main.go:39-94 | names, namespace, app=bookapi labels, both selectors, container name and ClusterIP type do not depend on the spec; both selectors select the pod template's labels |
| `Translator.DeploymentDeterminedBy` | cmd/main.go:31-68 | two specs give the same Deployment if and only if they agree on replicas, image and resolved port |
| `Translator.ServiceDeterminedBy` | cmd/main.go:78-102 | two specs give the same Service if and only if their resolved ports agree |
| `Translator.UnsetPortIsDefault` | cmd/main.go:79-82 | a spec with port 0 gives the same objects as the same spec with port 9090 |
| `Translator.DefaultPortScenario` | cmd/main.go:31-102 | Kluster{3, "repo/bookapi:v1", 0} gives 3 replicas, that image, container port 9090, command `./BookApi start -p 9090`, and Service port and target port 9090 |
| `Fmt.FormatInt` | cmd/main.go:59 | `fmt.Sprint` of an integer is a minus sign exactly when the integer is negative, followed by a non-empty digit string with no leading zero ("0" only for 0); with `Fmt.FormatIntRoundTrip` this fixes the text uniquely |
| `Fmt.NatDigits` | cmd/main.go:59 | the decimal text of a natural number is non-empty, all digits, with no leading zero, and is "0" only for 0 |
| `Fmt.FormatIntRoundTrip` | cmd/main.go:59 | reading back the text `fmt.Sprint` writes for an integer gives that integer |
| `Fmt.FormatIntInjective` | cmd/main.go:59 | two integers have the same decimal text if and only if they are equal |
| `Fmt.FormatDefaultPort` | cmd/main.go:59 | the default port is written as "9090" |
| `Reconciler.CreateIn` | cmd/main.go:70 | a create succeeds exactly when it does not fail otherwise and the name is free, and then stores the object; on a conflict it answers "already exists"; it never overwrites an entry, and adds at most the requested name |
| `Reconciler.ShouldHeal` | cmd/main.go:161 | the delete handlers' test `Labels["app"] == "bookapi"` holds exactly when the selector app=bookapi selects the object's labels (the same test is at cmd/main.go:174) |
| `Reconciler.RecreateDeploymentStep` | cmd/main.go:31-76 | `recreateDeployment` on the store: failure is reported exactly when the call failed otherwise; the derived Deployment is added under `bookapi-deployment` when the name was free and the call did not fail; the store is otherwise unchanged, and Services are untouched |
| `Reconciler.RecreateServiceStep` | cmd/main.go:78-110 | `recreateService` on the store, symmetric; Deployments are untouched |
| `Reconciler.Step` | cmd/main.go:144-182 | a Deployment create is attempted exactly on a Kluster add, or on a labelled Deployment delete when a first Kluster is listed; the same holds for Services. The kind with no attempted create is unchanged |
| `Reconciler.Run` | cmd/main.go:144-182 | after any sequence of events every name stored before is still stored, and the only name added is the derived name of each kind |
| `Reconciler.CreateInIdempotent` | cmd/main.go:70-75 | repeating a create that did not fail otherwise leaves the store unchanged and answers "already exists" |
| `Reconciler.KlusterAddConverges` | cmd/main.go:145-150 | a Kluster add attempts both creates. Each reports failure exactly when its call failed otherwise. Without such failures both names are present afterwards. Each kind's new map is given in full: the object derived from this Kluster is added when its name was free and its call did not fail, and the map is unchanged otherwise |
| `Reconciler.KlusterAddIdempotent` | cmd/main.go:145-150 | delivering the same Kluster add again, after one without failures, leaves the store unchanged |
| `Reconciler.KlusterDeleteIsNoop` | cmd/main.go:151-155 | a Kluster delete changes nothing and creates nothing: there is no cascade |
| `Reconciler.DeploymentDeleteGating` | cmd/main.go:159-168 | a Deployment delete creates something if and only if the object has app=bookapi and the list succeeded with at least one item. It then creates only the Deployment derived from the first item, or leaves the store unchanged when the name is taken or the call fails. Services are never touched. Otherwise nothing changes and nothing is reported |
| `Reconciler.ServiceDeleteGating` | cmd/main.go:172-181 | the same for a Service delete, which never touches Deployments |
| `Reconciler.UnlabelledDeleteIsNoop` | cmd/main.go:161-174 | a Deployment or Service delete without app=bookapi changes nothing and creates nothing |
| `Reconciler.DeploymentSelfHeals` | cmd/main.go:159-168 | if the Deployment derived from the first listed Kluster is deleted out-of-band, handling its delete event without failures restores exactly the previous store |
| `Reconciler.ServiceSelfHeals` | cmd/main.go:172-181 | the same for the Service |
| `Reconciler.StepGrows` | cmd/main.go:144-182 | a handler run keeps every stored object as it was and adds at most `bookapi-deployment` and `bookapi-service` |
| `Reconciler.RunGrows` | cmd/main.go:144-182 | any sequence of handler runs keeps every stored object as it was and adds at most the two derived names |
| `Reconciler.ConvergedIsFixpoint` | cmd/main.go:144-182 | once both derived objects exist, no event changes the store, and a create it attempts reports failure exactly when its call failed otherwise |
| `Reconciler.RunFromConverged` | cmd/main.go:144-182 | once both derived objects exist, any sequence of events leaves the store unchanged |
| `Reconciler.StepPreservesConforms` | cmd/main.go:144-182 | if each derived name holds an object derived from some spec, that stays true after any event |
| `Reconciler.RunPreservesConforms` | cmd/main.go:144-182 | the same after any sequence of events |
| `Reconciler.Cluster.CreateDeployment` | cmd/main.go:70 | the Deployment create call changes the Deployments exactly as `CreateIn` says, and leaves the Services alone |
| `Reconciler.Cluster.CreateService` | cmd/main.go:104 | the Service create call changes the Services exactly as `CreateIn` says, and leaves the Deployments alone |
| `Reconciler.RecreateDeployment` | cmd/main.go:31-76 | `recreateDeployment` creates the derived Deployment and reports failure exactly when the call failed otherwise. Without such a failure the name is present afterwards. Services are unchanged |
| `Reconciler.RecreateService` | cmd/main.go:78-110 | `recreateService`, symmetric |
| `Reconciler.OnKlusterAdd` | cmd/main.go:145-150 | the add handler creates the Deployment, then the Service, as `Step` says; each name is present afterwards unless its call failed otherwise |
| `Reconciler.OnKlusterDelete` | cmd/main.go:151-155 | the delete handler changes nothing, makes no create, and agrees with `Step` under every environment |
| `Reconciler.OnDeploymentDelete` | cmd/main.go:159-168 | the Deployment delete handler acts as `Step` says, never changes the Services, and changes nothing when it makes no create |
| `Reconciler.OnServiceDelete` | cmd/main.go:172-181 | the Service delete handler, symmetric |
| `Reconciler.Handle` | cmd/main.go:144-182 | dispatching an event to its handler has exactly the effect `Step` gives |

The `KlusterSpec` record follows pkg/apis/pulok.dev/v1alpha1/types.go:18-22. Of `Kluster` only the
name and the spec are kept (types.go:11-15), and a list result is `Option<seq<Kluster>>` (types.go:25-29).

## Left out

- Flag parsing, home directory and kubeconfig lookup, and clientset construction (cmd/main.go:112-133). These are configuration and I/O.
- Informer factories, handler registration, the stop channel and the dispatch goroutines (cmd/main.go:136-142, 184-190). Handlers run one event at a time, so concurrent handler runs across kinds are not modelled. Their only shared state is the store, and every create is atomic there.
- Add and update notifications for Deployments and Services, and Kluster update notifications, have no handler in the source. They are absent from `Event`.
- Logging with `fmt.Println`. An `Outcome` or `Effect` is returned instead.
- The `obj.(*T)` type assertions (cmd/main.go:146, 152, 160, 173). Events are typed, so the panic on a wrong payload cannot occur. That includes a delete tombstone, which an informer can deliver in place of the object.
- The real Kubernetes API types and the generated clients. Only the fields the controller sets are modelled.
- The rest of the API server's behaviour: defaulting, validation, namespaces other than `default`, resource versions.
- Every create error other than "already exists". These are one abstract failure, the `fault` flags of `Env`.
- Cascade deletion on Kluster delete, and update or drift reconciliation. The source implements neither.
