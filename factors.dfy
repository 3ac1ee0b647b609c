/**
 * The factor registry `FACTORS_DATA` (src/App.jsx): for each factor id the narrative
 * texts of its normal and of its reversed state, and the "nature of the factor" text
 * that the detail panel shows under both.
 */
module Factors {
  import opened Common

  datatype Factor = Factor(
    name: string,
    description: string,
    reverseName: string,
    reverseDescription: string,
    influence: string)

  /** `FACTORS_DATA`, keyed by factor id: stage 1 (cosmos), 2 (nature), 3 (civilisation), 4 (micro). */
  const Registry: map<string, Factor> :=
    map[
      "acceleration" := Factor(
        "Ускорение",
        "Стремительное расширение пространства, раздвигающее материю по всем осям.",
        "Замедление",
        "Постепенная остановка, остывание пространства, энтропийный коллапс.",
        "Темная энергия стимулирует ускорение, а масса (гравитация) сопротивляется ему."),
      "gravity" := Factor(
        "Тяжесть / Гравитация",
        "Стягивание материи в сложные структуры: звезды, планеты, галактики.",
        "Распад / Отторжение",
        "Отсутствие центров притяжения, хаотичное и бесконечное блуждание газа и пыли.",
        "Эффект возникает из-за массы, искривляющей саму ткань пространства-времени."),
      "sun" := Factor(
        "Солнце / Излучение",
        "Термоядерный реактор, питающий светом и теплом всю солнечную систему.",
        "Угасание",
        "Красный гигант коллапсирует в белый карлик. Свет гаснет, орбиты замерзают.",
        "Водород сливается в гелий, высвобождая энергию, которая поддерживает жизнь на 8 планетах."),
      "heating" := Factor(
        "Нагревание",
        "Меркурий — ближайший к Солнцу. Поверхность раскалена до 430°C. Фотонный шторм выжигает всё живое без остатка.",
        "Остывание",
        "Ночная сторона Меркурия опускается до -180°C. Экстремальный перепад за один оборот.",
        "Расстояние от звездой — главный регулятор теплового баланса планеты."),
      "freezing" := Factor(
        "Замерзание",
        "Марс — красная пустыня на краю обитаемой зоны. Средняя температура -63°C, CO₂ замерзает в полярных шапках.",
        "Оттепель",
        "Терраформирование: растопить полярные шапки CO₂ и запустить парниковый эффект.",
        "Разреженная атмосфера Марса не удерживает тепло — барьер для колонизации."),
      "void" := Factor(
        "Пустота",
        "Межзвёздная пустота — 99.9% объёма Вселенной. Вакуум кипит виртуальными частицами.",
        "Избыток",
        "Скопления материи: звёздные кластеры, туманности — сверхплотные очаги рождения миров.",
        "Пустота и избыток материи — два полюса структуры Вселенной."),
      "infinity" := Factor(
        "Бесконечность",
        "Вселенная расширяется быстрее скорости света. Горизонт событий скрывает от нас остальное.",
        "Ограниченность",
        "Замкнутая Вселенная: конечный объём пространства, искривлённого обратно в себя.",
        "Топология пространства определяет, конечна ли Вселенная."),
      "symbiosis" := Factor(
        "Симбиоз",
        "Сетевая кооперация, создающая обоюдную выгоду и усложняющая форму жизни.",
        "Паразитизм",
        "Одностороннее выкачивание ресурсов, ведущее к истощению донора и стагнации.",
        "Эволюционное давление вознаграждает тех, кто объединяет усилия."),
      "tides" := Factor(
        "Приливы",
        "Гравитация Луны деформирует оболочку Земли. Приливные волны охватывают океаны.",
        "Отливы",
        "Лунная гравитация ослабевает — воды возвращаются, обнажая дно.",
        "Луна удаляется от Земли на 3.8 см в год. Приливы замедляют вращение Земли."),
      "moonlight" := Factor(
        "Отражение",
        "Луна отражает 12% солнечного света обратно на Землю.",
        "Поглощение",
        "Тёмная сторона Луны поглощает свет полностью. Абсолютная тьма.",
        "Лунный цикл синхронизирован с биологическими ритмами."),
      "ocean" := Factor(
        "Океан",
        "Мировой океан покрывает 71% поверхности Земли. Колыбель жизни, регулятор климата, хранилище кислорода.",
        "Засуха",
        "Испарение без восполнения. Моря мелеют, дно трескается, жизнь отступает к полюсам.",
        "Вода — идеальный растворитель. Без жидкой фазы химия жизни невозможна."),
      "tectonics" := Factor(
        "Дрейф континентов",
        "Литосферные плиты медленно скользят по раскалённой мантии, сталкиваясь и воздвигая горные цепи.",
        "Землетрясения",
        "Резкий сброс напряжения: трещины разрывают сушу, меняя ландшафты за секунды.",
        "Движение плит обновляет поверхность планеты и регулирует углеродный цикл на миллионы лет."),
      "photosynthesis" := Factor(
        "Фотосинтез",
        "Хлорофилл захватывает фотоны Солнца, превращая CO₂ и воду в сахара и кислород.",
        "Увядание",
        "Без света хлорофилл распадается: леса буреют, кислородная атмосфера истощается.",
        "Фундамент пищевой цепи и главный генератор кислородной атмосферы Земли."),
      "wildlife" := Factor(
        "Биосфера",
        "Экосистема животных: от микроорганизмов до крупных хищников. Цепи питания удерживают равновесие.",
        "Вымирание",
        "Разрыв пищевых цепей. Виды исчезают быстрее, чем возникают. Тишина там, где была жизнь.",
        "Биоразнообразие — буфер устойчивости экосистемы против внешних потрясений."),
      "migration" := Factor(
        "Миграция",
        "Тысячи видов следуют древним маршрутам, перенося семена, опыляя растения и балансируя экосистемы.",
        "Рассеивание",
        "Стаи распадаются. Инстинкт навигации утрачен. Хаотичное блуждание без цели.",
        "Массовые перелёты формировались миллионы лет под давлением климата и магнитного поля Земли."),
      "atmosphere" := Factor(
        "Атмосфера",
        "Газовая оболочка защищает от радиации, удерживает тепло и несёт облака по континентам.",
        "Опустынивание",
        "Атмосфера теряет влагу. Ветра несут пыль. Зелёные пояса превращаются в пустыни.",
        "Состав атмосферы менялся трижды за историю Земли — каждый раз перезапуская эволюцию."),
      "aurora" := Factor(
        "Полярное сияние",
        "Солнечный ветер взаимодействует с магнитным полем Земли, зажигая ионы атмосферы в полярных кольцах.",
        "Затухание",
        "Магнитное поле слабеет. Солнечный ветер проникает глубже, срывая атмосферные слои.",
        "Магнитное поле — невидимый щит, без которого Земля превратилась бы в Марс."),
      "dayNight" := Factor(
        "День",
        "Суточное вращение создаёт ритм света и тьмы, которому подчинены все живые существа на Земле.",
        "Ночь",
        "Темнота активирует ночных хищников, замедляет метаболизм, запускает восстановление.",
        "Циркадные ритмы закодированы в геноме всех сложных организмов за 700 млн лет."),
      "sunEnergy" := Factor(
        "Солнечная энергия",
        "Термоядерный реактор в центре системы. Каждую секунду Солнце сжигает 600 млн тонн водорода.",
        "Угасание Солнца",
        "Красный гигант раздувается, поглощая внутренние планеты. Потом — белый карлик и тишина.",
        "Через 5 млрд лет Солнце исчерпает водород. До этого у жизни есть время."),
      "moonPhase" := Factor(
        "Луна",
        "Ближайший спутник стабилизирует ось Земли, создаёт приливы и освещает ночь отражённым светом.",
        "Тьма",
        "Новолуние. Тёмная сторона поглощает свет. Морские организмы теряют ориентацию.",
        "Без Луны ось Земли хаотично качалась бы — климат стал бы непредсказуемым."),
      "starField" := Factor(
        "Звёздное небо",
        "Ночное небо — карта 400 млрд звёзд нашей галактики. Ориентир для мореплавателей и миграций.",
        "Световой туман",
        "Свет городов заглушает звёзды. 80% человечества никогда не видело Млечного Пути.",
        "Созерцание звёздного неба запустило астрономию, навигацию и философию в каждой цивилизации."),
      "interference" := Factor(
        "Интерференция",
        "Волновые поля взаимодействуют: усиление в узлах, гашение в пучностях. Паттерн сложнее суммы частей.",
        "Изоляция",
        "Каждое поле существует отдельно. Без взаимодействия нет структуры, только шум.",
        "Квантовая интерференция лежит в основе химических связей и работы ферментов жизни."),
      "war" := Factor(
        "Война",
        "Радикальный, деструктивный инструмент перераспределения ограниченных ресурсов между группами.",
        "Мир / Интеграция",
        "Долгий процесс создания общих ценностей и безопасного обмена ресурсами без потерь.",
        "Срабатывает при критической нехватке ресурсов или экзистенциальном страхе популяции."),
      "progress" := Factor(
        "Технологический прогресс",
        "Экспоненциальное усложнение инструментов: от каменного рубила до квантовых компьютеров.",
        "Стагнация / Регресс",
        "Руины прежних эпох зарастают. Знания теряются. Цивилизация откатывается к прошлому.",
        "Каждое поколение строит на знаниях предыдущего — главный двигатель человеческой исключительности."),
      "ecology" := Factor(
        "Индустриализация",
        "Высвобождение энергии угля, нефти и атома питает мегаполисы и заводы любой ценой.",
        "Экологический баланс",
        "Города интегрируются в природный ландшафт. Возобновляемые источники заменяют ископаемое топливо.",
        "Промышленный CO₂ меняет климат всей планеты — геологический след человека."),
      "urbanization" := Factor(
        "Урбанизация",
        "Мегаполисы стягивают население планеты. 56% людей живут в городах, к 2050 будет 68%.",
        "Упадок городов",
        "Города пустеют. Природа возвращает улицы. Цивилизация рассыпается на изолированные общины.",
        "Концентрация людей ускоряет обмен идеями — города производят непропорционально много инноваций."),
      "trade" := Factor(
        "Торговля",
        "Обмен товарами, идеями и культурами по торговым путям соединяет цивилизации в единую сеть.",
        "Изоляционизм",
        "Закрытые границы. Технологии и культура развиваются независимо — медленнее и однообразнее.",
        "Великий шёлковый путь, специи, порох, бумага — всё это распространилось через торговые сети."),
      "culture" := Factor(
        "Культура",
        "Накопленная память цивилизации: искусство, язык, ритуалы — то, что передаётся без генов.",
        "Варварство",
        "Разрыв культурной преемственности. Без памяти — каждое поколение начинает с нуля.",
        "Культурная эволюция в тысячи раз быстрее биологической — новый вид адаптации."),
      "energy" := Factor(
        "Энергия",
        "Доступ к дешёвой энергии — основа любой цивилизации. Каждый скачок энергии = новая эпоха.",
        "Энергетическое истощение",
        "Ресурсы иссякают. Без энергии останавливаются заводы, города, связь. Возврат к ручному труду.",
        "Переход от биомассы к углю поднял производительность в 10 раз. Каждый следующий переход — ещё больше."),
      "interferenceNeuro" := Factor(
        "Нейро-интерференция",
        "Нейронные волны накладываются, создавая сложные паттерны сознания — мысли, образы, ощущения.",
        "Нейро-изоляция",
        "Нейроны перестают общаться. Сознание фрагментируется, теряя связность и смысл.",
        "Основа квантовых переходов в синапсах и формирования сложных когнитивных структур."),
      "dominanta" := Factor(
        "Доминанта",
        "Устойчивый очаг возбуждения в нейросети, подчиняющий себе остальные импульсы.",
        "Рассеянность",
        "Равноценный шум всех сигналов, не позволяющий сфокусировать энергию.",
        "Формируется под воздействием сильных биологических или психологических потребностей."),
      "abstraction" := Factor(
        "Абстракция",
        "Способность интеллекта отрывать свойства объектов от их физической, буквальной формы.",
        "Буквальность",
        "Строгая привязка мыслей только к текущей сенсорной реальности (\"здесь и сейчас\").",
        "Возникла благодаря развитию коры мозга для решения сложных многоходовых задач."),
      "mutation" := Factor(
        "Мутация",
        "Случайное изменение генетического кода, порождающее новые формы и свойства.",
        "Стагнация (Био)",
        "Генетическая неизменность: популяция теряет способность адаптироваться к новым условиям.",
        "Ошибки копирования ДНК — двигатель эволюции.")
    ]

  /** `FACTORS_DATA[id]`: the entry, or nothing for an id with no entry. */
  function Lookup(id: string): (r: Option<Factor>)
    ensures r.Some? <==> id in Registry
    ensures r.Some? ==> r.value == Registry[id]
  {
    if id in Registry then Some(Registry[id]) else None
  }

  /** No factor is registered under the empty id, so a selected registered id is never falsy. */
  lemma EmptyIdUnregistered()
    ensures "" !in Registry
  {
  }
}
